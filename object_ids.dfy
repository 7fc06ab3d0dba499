/**
 * Document identifiers. The store hands out `_id` values itself; the model
 * numbers them and renders them in decimal where a reply interpolates one.
 */
module ObjectIds {

  type ObjectId = nat

  function DigitChar(d: nat): (c: char)
    requires d < 10
    ensures '0' <= c <= '9'
  {
    "0123456789"[d]
  }

  function DigitValue(c: char): nat
  {
    if '0' <= c <= '9' then (c as int - '0' as int) as nat else 0
  }

  /** The text an `_id` becomes in a template literal. */
  function ToString(id: ObjectId): (s: string)
    ensures |s| > 0
    ensures forall i :: 0 <= i < |s| ==> '0' <= s[i] <= '9'
  {
    if id < 10 then [DigitChar(id)] else ToString(id / 10) + [DigitChar(id % 10)]
  }

  /** Reads a decimal rendering back. */
  function Parse(s: string): nat
  {
    if s == [] then 0 else Parse(s[..|s| - 1]) * 10 + DigitValue(s[|s| - 1])
  }

  lemma {:induction false} ParseToString(id: ObjectId)
    ensures Parse(ToString(id)) == id
  {
    if id >= 10 {
      var prefix := ToString(id / 10);
      var s := prefix + [DigitChar(id % 10)];
      assert s[..|s| - 1] == prefix;
      ParseToString(id / 10);
    }
  }

  /** Distinct ids give distinct texts, so a reply names the id it means. */
  lemma ToStringInjective(a: ObjectId, b: ObjectId)
    ensures ToString(a) == ToString(b) ==> a == b
  {
    ParseToString(a);
    ParseToString(b);
  }
}
