/** The string operations the agents and the orchestrator use: `str.split()`,
    `str.upper()`, `str.lower()`, `str.startswith` and the substring test `in`,
    restricted to ASCII case mapping and ASCII whitespace. */
module Text {

  /** The characters `str.isspace()` accepts below code point 128:
      tab, line feed, vertical tab, form feed, carriage return, the four
      information separators 0x1C-0x1F, and space. */
  predicate IsSpace(c: char) {
    (9 <= c as int <= 13) || (28 <= c as int <= 32)
  }

  predicate NoSpace(w: string) {
    forall k :: 0 <= k < |w| ==> !IsSpace(w[k])
  }

  // ---------------------------------------------------------------------------
  // str.split() with no separator

  /** `s.split()`: the maximal runs of non-whitespace characters, in order. */
  function Split(s: string): seq<string> {
    SplitFrom(s, "")
  }

  /** Splitting the rest `s` of a string while the word `cur` is being read. */
  function SplitFrom(s: string, cur: string): seq<string>
    decreases |s|
  {
    if s == [] then
      (if cur == [] then [] else [cur])
    else if IsSpace(s[0]) then
      (if cur == [] then [] else [cur]) + SplitFrom(s[1..], "")
    else
      SplitFrom(s[1..], cur + [s[0]])
  }

  /** Number of positions where a word starts: a non-whitespace character that
      is first, or follows whitespace (`afterSpace` says what precedes `s`). */
  function CountStarts(s: string, afterSpace: bool): nat
    decreases |s|
  {
    if s == [] then 0
    else (if afterSpace && !IsSpace(s[0]) then 1 else 0) + CountStarts(s[1..], IsSpace(s[0]))
  }

  /** Number of whitespace-separated words, counted independently of `Split`. */
  function WordCount(s: string): nat {
    CountStarts(s, true)
  }

  /** Concatenation of a sequence of strings. */
  function Concat(ws: seq<string>): string {
    if ws == [] then "" else ws[0] + Concat(ws[1..])
  }

  /** The string with every whitespace character removed. */
  function NonSpace(s: string): string {
    if s == [] then "" else (if IsSpace(s[0]) then "" else [s[0]]) + NonSpace(s[1..])
  }

  lemma {:induction false} ConcatAppend(a: seq<string>, b: seq<string>)
    ensures Concat(a + b) == Concat(a) + Concat(b)
  {
    if a != [] {
      assert (a + b)[0] == a[0] && (a + b)[1..] == a[1..] + b;
      ConcatAppend(a[1..], b);
      assert Concat(a + b) == a[0] + (Concat(a[1..]) + Concat(b));
    } else {
      assert a + b == b;
    }
  }

  lemma {:induction false} SplitFromCount(s: string, cur: string)
    ensures |SplitFrom(s, cur)| == (if cur == [] then 0 else 1) + CountStarts(s, cur == [])
    decreases |s|
  {
    if s != [] {
      if IsSpace(s[0]) {
        SplitFromCount(s[1..], "");
      } else {
        SplitFromCount(s[1..], cur + [s[0]]);
      }
    }
  }

  lemma {:induction false} SplitFromWords(s: string, cur: string)
    requires NoSpace(cur)
    ensures forall k :: 0 <= k < |SplitFrom(s, cur)| ==>
      SplitFrom(s, cur)[k] != [] && NoSpace(SplitFrom(s, cur)[k])
    ensures Concat(SplitFrom(s, cur)) == cur + NonSpace(s)
    decreases |s|
  {
    if s == [] {
    } else if IsSpace(s[0]) {
      SplitFromWords(s[1..], "");
      var head: seq<string> := if cur == [] then [] else [cur];
      ConcatAppend(head, SplitFrom(s[1..], ""));
    } else {
      SplitFromWords(s[1..], cur + [s[0]]);
    }
  }

  /** `len(s.split())` is the number of word starts in `s`. */
  lemma SplitCount(s: string)
    ensures |Split(s)| == WordCount(s)
  {
    SplitFromCount(s, "");
  }

  /** Every piece of `s.split()` is a non-empty run without whitespace, and
      together they are exactly the non-whitespace characters of `s`, in order. */
  lemma SplitWords(s: string)
    ensures forall k :: 0 <= k < |Split(s)| ==> Split(s)[k] != [] && NoSpace(Split(s)[k])
    ensures Concat(Split(s)) == NonSpace(s)
  {
    SplitFromWords(s, "");
  }

  // ---------------------------------------------------------------------------
  // upper() and lower(), ASCII letters only

  function UpperChar(c: char): char {
    if 'a' <= c <= 'z' then (c as int - 32) as char else c
  }

  function LowerChar(c: char): char {
    if 'A' <= c <= 'Z' then (c as int + 32) as char else c
  }

  /** `s.upper()`: each character mapped on its own; the length is kept. */
  function Upper(s: string): (r: string)
    ensures |r| == |s|
    ensures forall k :: 0 <= k < |s| ==> r[k] == UpperChar(s[k])
  {
    if s == [] then "" else [UpperChar(s[0])] + Upper(s[1..])
  }

  /** `s.lower()`: each character mapped on its own; the length is kept. */
  function Lower(s: string): (r: string)
    ensures |r| == |s|
    ensures forall k :: 0 <= k < |s| ==> r[k] == LowerChar(s[k])
  {
    if s == [] then "" else [LowerChar(s[0])] + Lower(s[1..])
  }

  /** Lower-casing forgets an earlier upper-casing. */
  lemma LowerAfterUpper(s: string)
    ensures Lower(Upper(s)) == Lower(s)
  {
  }

  /** Upper-casing twice is upper-casing once. */
  lemma UpperIdempotent(s: string)
    ensures Upper(Upper(s)) == Upper(s)
  {
  }

  // ---------------------------------------------------------------------------
  // startswith and substring membership

  /** `s.startswith(p)`. */
  predicate StartsWith(s: string, p: string) {
    |p| <= |s| && s[..|p|] == p
  }

  /** `sub` occurs in `s` beginning at index `i`. */
  predicate OccursAt(s: string, sub: string, i: nat) {
    i + |sub| <= |s| && s[i..i + |sub|] == sub
  }

  /** `sub in s`, by scanning the start positions of `s` one by one. */
  predicate Contains(s: string, sub: string)
    decreases |s|
  {
    StartsWith(s, sub) || (s != [] && Contains(s[1..], sub))
  }

  /** The scan finds `sub` exactly when it occurs somewhere in `s`. */
  lemma {:induction false} ContainsIff(s: string, sub: string)
    ensures Contains(s, sub) <==> exists i: nat :: OccursAt(s, sub, i)
    decreases |s|
  {
    if StartsWith(s, sub) {
      assert OccursAt(s, sub, 0);
    } else if s == [] {
    } else {
      ContainsIff(s[1..], sub);
      if Contains(s[1..], sub) {
        var i: nat :| OccursAt(s[1..], sub, i);
        assert s[1..][i..i + |sub|] == s[i + 1..i + 1 + |sub|];
        assert OccursAt(s, sub, i + 1);
      } else {
        forall i: nat ensures !OccursAt(s, sub, i) {
          if OccursAt(s, sub, i) {
            assert i != 0;
            assert s[1..][i - 1..i - 1 + |sub|] == s[i..i + |sub|];
            assert OccursAt(s[1..], sub, i - 1);
          }
        }
      }
    }
  }
}
