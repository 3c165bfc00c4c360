/** Class strings as lists of words, and the cache that parses them
    (frontend/libs/ui/utils/src/lib/hlm.ts). */
module ClassList {

  /** A word is what splitting at the blank and dropping empty pieces leaves. */
  predicate IsWord(w: string) {
    w != "" && ' ' !in w
  }

  predicate AllWords(ws: seq<string>) {
    forall i :: 0 <= i < |ws| ==> IsWord(ws[i])
  }

  /** Position of the first blank, or the length when there is none. */
  function FirstBlank(s: string): (i: nat)
    ensures i <= |s| && ' ' !in s[..i]
    ensures i < |s| ==> s[i] == ' '
  {
    if s == "" || s[0] == ' ' then 0 else
      var i := 1 + FirstBlank(s[1..]);
      assert s[..i] == [s[0]] + s[1..][..i - 1];
      i
  }

  /** `s.split(' ')`. */
  function Split(s: string): seq<string> {
    var i := FirstBlank(s);
    if i == |s| then [s] else [s[..i]] + Split(s[i + 1..])
  }

  /** `.filter((c) => c.length > 0)`. */
  function NonEmpty(pieces: seq<string>): seq<string> {
    if pieces == [] then [] else
      (if pieces[0] == "" then [] else [pieces[0]]) + NonEmpty(pieces[1..])
  }

  /** What `toClassList` computes when nothing is cached. */
  function Parse(s: string): seq<string> {
    NonEmpty(Split(s))
  }

  lemma {:induction false} SplitPieces(s: string)
    ensures forall i :: 0 <= i < |Split(s)| ==> ' ' !in Split(s)[i]
  {
    if FirstBlank(s) < |s| {
      SplitPieces(s[FirstBlank(s) + 1..]);
    }
  }

  lemma {:induction false} NonEmptyWords(pieces: seq<string>)
    requires forall i :: 0 <= i < |pieces| ==> ' ' !in pieces[i]
    ensures AllWords(NonEmpty(pieces))
  {
    if pieces != [] {
      NonEmptyWords(pieces[1..]);
    }
  }

  lemma ParseWords(s: string)
    ensures AllWords(Parse(s))
  {
    SplitPieces(s);
    NonEmptyWords(Split(s));
  }

  /** Words joined by single blanks: how `clsx` and `twMerge` write a class list. */
  function Join(ws: seq<string>): string {
    if ws == [] then "" else if |ws| == 1 then ws[0] else ws[0] + " " + Join(ws[1..])
  }

  lemma {:induction false} FirstBlankIs(w: string, rest: string)
    requires ' ' !in w
    ensures FirstBlank(w + " " + rest) == |w|
  {
    if w != "" {
      FirstBlankIs(w[1..], rest);
      assert (w + " " + rest)[1..] == w[1..] + " " + rest;
    }
  }

  /** Parsing undoes joining, so a normalised class string is its list of words. */
  lemma {:induction false} ParseJoin(ws: seq<string>)
    requires AllWords(ws)
    ensures Parse(Join(ws)) == ws
  {
    if ws == [] {
      assert Split("") == [""];
    } else if |ws| == 1 {
      var i := FirstBlank(ws[0]);
      assert i == |ws[0]|;
      assert Split(ws[0]) == [ws[0]];
      assert NonEmpty([ws[0]]) == [ws[0]] + NonEmpty([]);
    } else {
      var rest := Join(ws[1..]);
      var s := ws[0] + " " + rest;
      FirstBlankIs(ws[0], rest);
      assert s[..|ws[0]|] == ws[0] && s[|ws[0]| + 1..] == rest;
      assert Split(s) == [ws[0]] + Split(rest);
      assert ([ws[0]] + Split(rest))[1..] == Split(rest);
      ParseJoin(ws[1..]);
    }
  }

  lemma JoinInjective(a: seq<string>, b: seq<string>)
    requires AllWords(a) && AllWords(b) && Join(a) == Join(b)
    ensures a == b
  {
    ParseJoin(a);
    ParseJoin(b);
  }

  /** A `ClassValue[] | string` argument: only plain strings are cached. */
  datatype ClassInput = Text(text: string) | Values(values: seq<string>)

  /** `clsx`: joins the non-empty strings of a list. */
  function Clsx(input: ClassInput): string {
    match input
    case Text(s) => s
    case Values(vs) => Join(NonEmpty(vs))
  }

  // ---- parsing, piece by piece ----

  lemma SplitAt(w: string, rest: string)
    requires ' ' !in w
    ensures Split(w + " " + rest) == [w] + Split(rest)
  {
    FirstBlankIs(w, rest);
    var s := w + " " + rest;
    assert s[..|w|] == w && s[|w| + 1..] == rest;
  }

  lemma {:induction false} FirstBlankPrefix(a: string, t: string)
    requires FirstBlank(a) < |a|
    ensures FirstBlank(a + t) == FirstBlank(a)
  {
    if a[0] != ' ' {
      assert (a + t)[1..] == a[1..] + t;
      FirstBlankPrefix(a[1..], t);
    }
  }

  lemma SplitFirst(a: string, t: string)
    requires FirstBlank(a) < |a|
    ensures var i := FirstBlank(a); Split(a + t) == [a[..i]] + Split(a[i + 1..] + t)
  {
    var i, s := FirstBlank(a), a + t;
    FirstBlankPrefix(a, t);
    assert s[..i] == a[..i] && s[i + 1..] == a[i + 1..] + t;
  }

  lemma {:induction false} SplitTail(a: string, t: string, pieces: seq<string>)
    requires t != "" && t[0] == ' ' && pieces == Split(t[1..])
    ensures Split(a + t) == Split(a) + pieces
    decreases |a|
  {
    var i := FirstBlank(a);
    if i == |a| {
      assert t == " " + t[1..] && a + t == a + " " + t[1..];
      SplitAt(a, t[1..]);
    } else {
      SplitTail(a[i + 1..], t, pieces);
      SplitFirst(a, t);
      Regroup([a[..i]], Split(a[i + 1..]), pieces);
    }
  }

  lemma Regroup(first: seq<string>, mid: seq<string>, rest: seq<string>)
    ensures first + (mid + rest) == (first + mid) + rest
  {
  }

  lemma SplitConcat(a: string, b: string)
    ensures Split(a + " " + b) == Split(a) + Split(b)
  {
    var t := " " + b;
    assert t[1..] == b && a + t == a + " " + b;
    SplitTail(a, t, Split(b));
  }

  lemma {:induction false} NonEmptyConcat(a: seq<string>, b: seq<string>)
    ensures NonEmpty(a + b) == NonEmpty(a) + NonEmpty(b)
  {
    if a == [] {
      assert a + b == b;
    } else {
      assert (a + b)[1..] == a[1..] + b;
      NonEmptyConcat(a[1..], b);
    }
  }

  /** Parsing goes blank by blank, whatever blanks there are: a blank only separates, nothing has no class, and a
      word is one class. */
  lemma ParseSeparates(a: string, b: string, w: string)
    ensures Parse(a + " " + b) == Parse(a) + Parse(b)
    ensures Parse("") == []
    ensures IsWord(w) ==> Parse(w) == [w]
  {
    SplitConcat(a, b);
    NonEmptyConcat(Split(a), Split(b));
    ParseJoin([]);
    if IsWord(w) {
      ParseJoin([w]);
    }
  }

  function ParseEach(texts: seq<string>): seq<string> {
    if texts == [] then [] else Parse(texts[0]) + ParseEach(texts[1..])
  }

  lemma {:induction false} ParseJoined(texts: seq<string>)
    ensures Parse(Join(texts)) == ParseEach(texts)
  {
    if texts == [] {
      ParseJoin([]);
    } else if |texts| == 1 {
      assert ParseEach(texts) == Parse(texts[0]) + [] == Parse(texts[0]);
    } else {
      ParseJoined(texts[1..]);
      ParseSeparates(texts[0], Join(texts[1..]), "");
    }
  }

  lemma {:induction false} ParseEachNonEmpty(texts: seq<string>)
    ensures ParseEach(NonEmpty(texts)) == ParseEach(texts)
  {
    if texts != [] {
      ParseEachNonEmpty(texts[1..]);
      ParseJoin([]);
      var rest := NonEmpty(texts[1..]);
      assert [] + rest == rest && ([texts[0]] + rest)[1..] == rest;
      assert Parse("") + ParseEach(texts[1..]) == ParseEach(texts[1..]);
    }
  }

  /** A list argument gives the classes of its strings, one after the other. */
  lemma ParseValues(texts: seq<string>)
    ensures Parse(Clsx(Values(texts))) == ParseEach(texts)
  {
    ParseJoined(NonEmpty(texts));
    ParseEachNonEmpty(texts);
  }

  const CACHE_LIMIT := 1000

  /** The module-level `classListCache`; a hit hands out the cached array itself, shared. */
  class ClassListCache {
    var entries: map<string, array<string>>

    ghost predicate Valid()
      reads this, entries.Values
    {
      |entries| <= CACHE_LIMIT
      && forall s :: s in entries ==> entries[s][..] == Parse(s)
    }

    constructor ()
      ensures Valid() && entries == map[]
    {
      entries := map[];
    }

    /** `toClassList`: a hit and a miss give the same words; a miss caches only text, below the limit. */
    method ToClassList(input: ClassInput) returns (r: array<string>)
      requires Valid()
      modifies this
      ensures Valid()
      ensures r[..] == Parse(Clsx(input))
      ensures fresh(r) || r in old(entries.Values)
      ensures entries == if input.Text? && input.text !in old(entries) && |old(entries)| < 1000
                         then old(entries)[input.text := r] else old(entries)
      ensures |entries| <= 1000
      ensures input.Text? && input.text in old(entries) ==> r == old(entries)[input.text]
    {
      if input.Text? && input.text in entries {
        return entries[input.text];
      }
      var ws := Parse(Clsx(input));
      r := new string[|ws|](i requires 0 <= i < |ws| => ws[i]);
      assert r[..] == ws;
      if input.Text? && |entries| < CACHE_LIMIT {
        entries := entries[input.text := r];
      }
    }

    /** Any sequence of calls: no call disturbs an array handed out earlier, so every caller that only
        reads its result sees the uncached parse to the end, and the bound holds throughout. */
    method ParseAll(inputs: seq<ClassInput>) returns (rs: seq<array<string>>)
      requires Valid()
      modifies this
      ensures Valid()
      ensures |rs| == |inputs|
      ensures forall i :: 0 <= i < |inputs| ==> rs[i][..] == Parse(Clsx(inputs[i]))
    {
      rs := [];
      for n := 0 to |inputs|
        invariant Valid() && |rs| == n
        invariant forall i :: 0 <= i < n ==> rs[i][..] == Parse(Clsx(inputs[i]))
      {
        var r := ToClassList(inputs[n]);
        rs := rs + [r];
      }
    }
  }
}
