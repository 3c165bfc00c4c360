/** The merge the reconciliation engine relies on: `twMerge` scans from the right, keeps a class unless
    its group is blocked, and only kept classes block groups. */
module ClassMerge {
  import opened Basics
  import opened ClassList

  /** Which group a class belongs to (None for a class the merger does not know), and which groups
      a kept class of a group blocks. Both are the merger's own tables, so they stay abstract. */
  datatype Merger = Merger(group: string -> Option<nat>, blocks: nat -> set<nat>)

  predicate IsBlocked(m: Merger, w: string, blocked: set<nat>) {
    (m.group)(w).Some? && (m.group)(w).value in blocked
  }

  function Closes(m: Merger, w: string): set<nat> {
    match (m.group)(w)
    case None => {}
    case Some(g) => (m.blocks)(g)
  }

  /** The words kept of `ws` when the groups in `blocked` are already taken. */
  function Keep(m: Merger, ws: seq<string>, blocked: set<nat>): seq<string> {
    if ws == [] then []
    else if IsBlocked(m, Last(ws), blocked) then Keep(m, Init(ws), blocked)
    else Keep(m, Init(ws), blocked + Closes(m, Last(ws))) + [Last(ws)]
  }

  /** The groups taken once `ws` has been scanned. */
  function Taken(m: Merger, ws: seq<string>, blocked: set<nat>): set<nat> {
    if ws == [] then blocked
    else if IsBlocked(m, Last(ws), blocked) then Taken(m, Init(ws), blocked)
    else Taken(m, Init(ws), blocked + Closes(m, Last(ws)))
  }

  function Merge(m: Merger, ws: seq<string>): seq<string> {
    Keep(m, ws, {})
  }

  lemma {:induction false} KeepInside(m: Merger, ws: seq<string>, blocked: set<nat>)
    ensures forall w :: w in Keep(m, ws, blocked) ==> w in ws
  {
    if ws != [] {
      Snoc(ws);
      KeepInside(m, Init(ws), blocked);
      KeepInside(m, Init(ws), blocked + Closes(m, Last(ws)));
    }
  }

  /** Merging a concatenation: the right part is merged alone, the left part under what it took. */
  lemma {:induction false} KeepConcat(m: Merger, a: seq<string>, b: seq<string>, blocked: set<nat>)
    ensures Keep(m, a + b, blocked) == Keep(m, a, Taken(m, b, blocked)) + Keep(m, b, blocked)
  {
    if b == [] {
      assert a + b == a;
    } else {
      assert Last(a + b) == Last(b) && Init(a + b) == a + Init(b);
      KeepConcat(m, a, Init(b), blocked);
      KeepConcat(m, a, Init(b), blocked + Closes(m, Last(b)));
    }
  }

  /** Merging again drops nothing more and takes the same groups: classes already overridden
      may be forgotten without changing any later merge. */
  lemma {:induction false} KeepIdempotent(m: Merger, ws: seq<string>, blocked: set<nat>)
    ensures Keep(m, Keep(m, ws, blocked), blocked) == Keep(m, ws, blocked)
    ensures Taken(m, Keep(m, ws, blocked), blocked) == Taken(m, ws, blocked)
  {
    if ws != [] {
      if IsBlocked(m, Last(ws), blocked) {
        KeepIdempotent(m, Init(ws), blocked);
      } else {
        var more := blocked + Closes(m, Last(ws));
        KeepIdempotent(m, Init(ws), more);
        assert Init(Keep(m, ws, blocked)) == Keep(m, Init(ws), more);
      }
    }
  }

  /** Whatever stands to its left, a base list may be replaced by the part of it that survives. */
  lemma MergeForgetsOverridden(m: Merger, sources: seq<string>, base: seq<string>)
    ensures Merge(m, sources + Merge(m, base)) == Merge(m, sources + base)
  {
    KeepConcat(m, sources, base, {});
    KeepConcat(m, sources, Merge(m, base), {});
    KeepIdempotent(m, base, {});
  }

  /** The groups the words of `ws` block. */
  function ClosedBy(m: Merger, ws: seq<string>): set<nat> {
    if ws == [] then {} else ClosedBy(m, Init(ws)) + Closes(m, Last(ws))
  }

  lemma {:induction false} OnlyKeptBlock(m: Merger, ws: seq<string>, blocked: set<nat>)
    ensures Taken(m, ws, blocked) == blocked + ClosedBy(m, Keep(m, ws, blocked))
  {
    if ws != [] {
      if IsBlocked(m, Last(ws), blocked) {
        OnlyKeptBlock(m, Init(ws), blocked);
      } else {
        var more := blocked + Closes(m, Last(ws));
        OnlyKeptBlock(m, Init(ws), more);
        assert Init(Keep(m, ws, blocked)) == Keep(m, Init(ws), more);
      }
    }
  }

  /** A kept class of the list blocks the class's group. */
  ghost predicate BlockedByKept(m: Merger, w: string, kept: seq<string>) {
    exists i :: 0 <= i < |kept| && (m.group)(w).Some? && (m.group)(kept[i]).Some?
      && (m.group)(w).value in (m.blocks)((m.group)(kept[i]).value)
  }

  lemma {:induction false} ClosedByMembers(m: Merger, ws: seq<string>, g: nat)
    ensures g in ClosedBy(m, ws) <==> exists i :: 0 <= i < |ws| && (m.group)(ws[i]).Some? && g in (m.blocks)((m.group)(ws[i]).value)
  {
    if ws != [] {
      ClosedByMembers(m, Init(ws), g);
      var last := |ws| - 1;
      if g in ClosedBy(m, ws) {
        if g in ClosedBy(m, Init(ws)) {
          var i :| 0 <= i < |Init(ws)| && (m.group)(Init(ws)[i]).Some? && g in (m.blocks)((m.group)(Init(ws)[i]).value);
          assert Init(ws)[i] == ws[i];
        } else {
          assert (m.group)(ws[last]).Some?;
        }
      }
      if i :| 0 <= i < |ws| && (m.group)(ws[i]).Some? && g in (m.blocks)((m.group)(ws[i]).value) {
        if i < last {
          assert Init(ws)[i] == ws[i];
        }
      }
    }
  }

  /** A class is dropped, as if it had never been there, exactly when a class kept to its right blocks its
      group; otherwise it stays, just before those. */
  lemma KeptExactlyWhen(m: Merger, left: seq<string>, w: string, right: seq<string>)
    ensures var whole, later := Merge(m, left + [w] + right), Merge(m, right);
            if BlockedByKept(m, w, later) then whole == Merge(m, left + right)
            else |whole| > |later| && whole[|whole| - |later| - 1] == w && whole[|whole| - |later|..] == later
  {
    var later, taken := Merge(m, right), Taken(m, right, {});
    OnlyKeptBlock(m, right, {});
    KeepConcat(m, left + [w], right, {});
    KeepConcat(m, left, right, {});
    assert Init(left + [w]) == left && Last(left + [w]) == w;
    if (m.group)(w).Some? {
      ClosedByMembers(m, later, (m.group)(w).value);
    }
    assert IsBlocked(m, w, taken) <==> BlockedByKept(m, w, later);
  }

  // ---- ordered sets: `Set<string>` iterates in insertion order ----

  predicate Distinct(ws: seq<string>) {
    ws == [] || (Last(ws) !in Init(ws) && Distinct(Init(ws)))
  }

  /** The words of `ws` that are not in `not`, in order. */
  function Without(ws: seq<string>, not: set<string>): seq<string> {
    if ws == [] then [] else
      Without(Init(ws), not) + if Last(ws) in not then [] else [Last(ws)]
  }

  lemma {:induction false} WithoutMembers(ws: seq<string>, not: set<string>)
    ensures forall w :: w in Without(ws, not) <==> w in ws && w !in not
  {
    if ws != [] {
      Snoc(ws);
      WithoutMembers(Init(ws), not);
    }
  }

  /** Adds the words of `ws` to the ordered set `to`, one after the other. */
  function AddAll(to: seq<string>, ws: seq<string>): seq<string> {
    if ws == [] then to else
      var r := AddAll(to, Init(ws));
      if Last(ws) in r then r else r + [Last(ws)]
  }

  lemma {:induction false} AddAllMembers(to: seq<string>, ws: seq<string>)
    ensures forall w :: w in AddAll(to, ws) <==> w in to || w in ws
    ensures Distinct(to) ==> Distinct(AddAll(to, ws))
  {
    if ws != [] {
      Snoc(ws);
      AddAllMembers(to, Init(ws));
      var r := AddAll(to, Init(ws));
      assert Init(r + [Last(ws)]) == r;
    }
  }

  lemma {:induction false} WithoutConcat(a: seq<string>, b: seq<string>, not: set<string>)
    ensures Without(a + b, not) == Without(a, not) + Without(b, not)
  {
    if b == [] {
      assert a + b == a;
    } else {
      assert Last(a + b) == Last(b) && Init(a + b) == a + Init(b);
      WithoutConcat(a, Init(b), not);
    }
  }

  /** Words are added one after the other, and what was there first stays in front. */
  lemma {:induction false} AddAllExtends(to: seq<string>, a: seq<string>, b: seq<string>)
    ensures AddAll(to, a + b) == AddAll(AddAll(to, a), b)
    ensures to <= AddAll(to, b)
    ensures Distinct(to) ==> Distinct(AddAll(to, b))
  {
    if b == [] {
      assert a + b == a;
    } else {
      assert Init(a + b) == a + Init(b) && Last(a + b) == Last(b);
      AddAllExtends(to, a, Init(b));
      var r := AddAll(to, Init(b));
      assert Init(r + [Last(b)]) == r;
    }
  }

  lemma {:induction false} WithoutDisjoint(ws: seq<string>, not: set<string>)
    requires forall w :: w in ws ==> w !in not
    ensures Without(ws, not) == ws
  {
    if ws != [] {
      Snoc(ws);
      WithoutDisjoint(Init(ws), not);
    }
  }

  lemma {:induction false} WithoutInside(ws: seq<string>, not: set<string>)
    requires forall w :: w in ws ==> w in not
    ensures Without(ws, not) == []
  {
    if ws != [] {
      Snoc(ws);
      WithoutInside(Init(ws), not);
    }
  }

  lemma {:induction false} AddAllDistinct(to: seq<string>, ws: seq<string>)
    requires Distinct(to + ws)
    ensures AddAll(to, ws) == to + ws
  {
    if ws != [] {
      Snoc(ws);
      assert Init(to + ws) == to + Init(ws) && Last(to + ws) == Last(ws);
      AddAllDistinct(to, Init(ws));
    }
  }

  lemma {:induction false} AddAllPresent(to: seq<string>, ws: seq<string>)
    requires forall w :: w in ws ==> w in to
    ensures AddAll(to, ws) == to
  {
    if ws != [] {
      Snoc(ws);
      AddAllPresent(to, Init(ws));
    }
  }

  lemma {:induction false} KeepDistinct(m: Merger, ws: seq<string>, blocked: set<nat>)
    requires Distinct(ws)
    ensures Distinct(Keep(m, ws, blocked))
  {
    if ws == [] {
    } else if IsBlocked(m, Last(ws), blocked) {
      KeepDistinct(m, Init(ws), blocked);
    } else {
      var rest := Keep(m, Init(ws), blocked + Closes(m, Last(ws)));
      KeepInside(m, Init(ws), blocked + Closes(m, Last(ws)));
      KeepDistinct(m, Init(ws), blocked + Closes(m, Last(ws)));
      assert Init(rest + [Last(ws)]) == rest;
    }
  }

  lemma WordsOf(kept: seq<string>, ws: seq<string>)
    requires AllWords(ws) && forall w :: w in kept ==> w in ws
    ensures AllWords(kept)
  {
    forall i | 0 <= i < |kept| ensures IsWord(kept[i]) {
      assert kept[i] in ws;
    }
  }
}
