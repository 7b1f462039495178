/** Object keys of the film-roll bucket: a roll's objects are stored under
    `roll + "/" + name`, and a roll name is read back as the text of a key or
    common prefix before its first '/'. */
module Keys {

  const Delimiter: char := '/'

  /** JavaScript's `s.split('/')[0]`: the text of `s` before its first '/',
      all of `s` when it has none. */
  function FirstSegment(s: string): (r: string)
    ensures r <= s
    ensures Delimiter !in r
    ensures |r| < |s| ==> s[|r|] == Delimiter
  {
    if s == [] || s[0] == Delimiter then [] else [s[0]] + FirstSegment(s[1..])
  }

  /** The three properties of FirstSegment's contract determine it: any
      slash-free prefix of `s` that ends at a '/' or at the end of `s` is it. */
  lemma {:induction false} FirstSegmentUnique(s: string, r: string)
    requires r <= s && Delimiter !in r
    requires |r| < |s| ==> s[|r|] == Delimiter
    ensures r == FirstSegment(s)
  {
    if s != [] && s[0] != Delimiter {
      assert r != [] && r[0] == s[0];
      assert r[1..] <= s[1..];
      assert |r[1..]| < |s[1..]| ==> s[1..][|r[1..]|] == s[|r|];
      FirstSegmentUnique(s[1..], r[1..]);
      assert r == [r[0]] + r[1..];
    }
  }

  /** The key of object `name` in roll `roll`: `${roll}/${name}`. */
  function ObjectKey(roll: string, name: string): (key: string)
    ensures roll + [Delimiter] <= key
    ensures |key| == |roll| + 1 + |name|
    ensures key[|roll| + 1..] == name
  {
    roll + [Delimiter] + name
  }

  /** A roll is read back from each of its keys, whatever the member name. */
  lemma FirstSegmentOfKey(roll: string, name: string)
    requires Delimiter !in roll
    ensures FirstSegment(ObjectKey(roll, name)) == roll
  {
    FirstSegmentUnique(ObjectKey(roll, name), roll);
  }

  /** Keys of slash-free rolls are unambiguous: the key determines both the
      roll and the member name. */
  lemma ObjectKeyInjective(roll1: string, name1: string, roll2: string, name2: string)
    requires Delimiter !in roll1 && Delimiter !in roll2
    requires ObjectKey(roll1, name1) == ObjectKey(roll2, name2)
    ensures roll1 == roll2 && name1 == name2
  {
    FirstSegmentOfKey(roll1, name1);
    FirstSegmentOfKey(roll2, name2);
  }
}
