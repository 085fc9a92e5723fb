/** The two string primitives the assistant relies on: lower-casing and substring containment
    (Python's `str.lower()` and `part in text`). Lower-casing is modelled on ASCII letters only. */
module Text {

  /** ASCII lower-casing of one character; every other character is left alone. */
  function LowerChar(c: char): char {
    if 'A' <= c <= 'Z' then (c as int - 'A' as int + 'a' as int) as char else c
  }

  /** `s.lower()`, character by character: same length, no upper-case ASCII letter left. */
  function Lower(s: string): (r: string)
    ensures |r| == |s|
    ensures forall i :: 0 <= i < |r| ==> !('A' <= r[i] <= 'Z')
  {
    seq(|s|, i requires 0 <= i < |s| => LowerChar(s[i]))
  }

  lemma LowerIdempotent(s: string)
    ensures Lower(Lower(s)) == Lower(s)
  {

  }

  /** `part in text`: `part` occurs in `text` as a contiguous block, found by sliding the
      start of the comparison along `text`. */
  function Contains(text: string, part: string): (b: bool)
    ensures b ==> |part| <= |text|
    decreases |text|
  {
    part <= text || (text != [] && Contains(text[1..], part))
  }

  /** Offset characterisation of `Contains`: `part` occurs in `text` starting at `i`. */
  ghost predicate OccursAt(text: string, part: string, i: int) {
    0 <= i && i + |part| <= |text| && text[i..i + |part|] == part
  }

  lemma {:induction false} ContainsIffOccurs(text: string, part: string)
    ensures Contains(text, part) <==> exists i :: OccursAt(text, part, i)
    decreases |text|
  {
    if part <= text {
      assert OccursAt(text, part, 0);
    } else if text == [] {
    } else {
      ContainsIffOccurs(text[1..], part);
      if Contains(text[1..], part) {
        var i :| OccursAt(text[1..], part, i);
        assert text[1..][i..i + |part|] == text[i + 1..i + 1 + |part|];
        assert OccursAt(text, part, i + 1);
      } else {
        forall i | OccursAt(text, part, i) ensures false {
          if i != 0 {
            assert text[1..][i - 1..i - 1 + |part|] == text[i..i + |part|];
            assert OccursAt(text[1..], part, i - 1);
          }
        }
      }
    }
  }

  /** `any(p in text for p in parts)`, scanning `parts` in order. */
  function ContainsAny(text: string, parts: seq<string>): (b: bool)
    ensures b <==> exists j :: 0 <= j < |parts| && Contains(text, parts[j])
  {
    if parts == [] then false
    else if Contains(text, parts[0]) then true
    else
      assert forall j :: 1 <= j < |parts| ==> parts[j] == parts[1..][j - 1];
      ContainsAny(text, parts[1..])
  }
}
