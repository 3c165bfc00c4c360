/** The search box of the live feed: trimming and finding text. */
module FeedSearch {
  import opened Basics
  import opened Domain
  import opened HubService
  import opened Feed

  /** Trimmed to `s[i..j]`: only white space is cut off, and all of it at either end. */
  predicate TrimmedTo(s: string, i: nat, j: nat) {
    && i <= j <= |s| && Trim(s) == s[i..j]
    && JsBlank(s[..i]) && JsBlank(s[j..])
    && (i < j ==> !JsSpace(s[i]) && !JsSpace(s[j - 1]))
  }

  predicate StartsAt(s: string, i: nat) {
    i <= |s| && TrimStart(s) == s[i..] && JsBlank(s[..i]) && (i < |s| ==> !JsSpace(s[i]))
  }

  predicate EndsAt(s: string, j: nat) {
    j <= |s| && TrimEnd(s) == s[..j] && JsBlank(s[j..]) && (j > 0 ==> !JsSpace(s[j - 1]))
  }

  lemma {:induction false} TrimStartExactly(s: string) returns (i: nat)
    ensures StartsAt(s, i)
  {
    if s != "" && JsSpace(s[0]) {
      var k := TrimStartExactly(s[1..]);
      i := k + 1;
      assert s[1..][k..] == s[i..] && s[..i] == [s[0]] + s[1..][..k];
    } else {
      i := 0;
    }
  }

  lemma {:induction false} TrimEndExactly(s: string) returns (j: nat)
    ensures EndsAt(s, j)
  {
    if s != "" && JsSpace(Last(s)) {
      j := TrimEndExactly(Init(s));
      assert Init(s)[..j] == s[..j] && s[j..] == Init(s)[j..] + [Last(s)];
    } else {
      j := |s|;
    }
  }

  lemma TrimExactly(s: string)
    ensures exists i, j :: TrimmedTo(s, i, j)
  {
    var i := TrimStartExactly(s);
    var t := s[i..];
    var k := TrimEndExactly(t);
    var j := i + k;
    assert t[..k] == s[i..j] && t[k..] == s[j..];
    assert TrimmedTo(s, i, j);
  }

  /** The term stands somewhere in the text. */
  ghost predicate Contains(s: string, term: string) {
    exists a, b :: s == a + term + b
  }

  lemma IncludesExactly(s: string, term: string)
    ensures Includes(s, term) <==> Contains(s, term)
  {
    if Includes(s, term) {
      var i :| 0 <= i <= |s| && OccursAt(s, term, i);
      assert s == s[..i] + term + s[i + |term|..];
    }
    if Contains(s, term) {
      var a, b :| s == a + term + b;
      assert s[|a|..|a| + |term|] == term;
      assert OccursAt(s, term, |a|);
    }
  }

  /** Payload, routing key or exchange contains the term, in lower case. */
  ghost predicate Found(lower: string -> string, r: Received, term: string) {
    || Contains(lower(r.dto.payload), term)
    || Contains(lower(r.dto.routingKey), term)
    || Contains(lower(r.dto.exchange), term)
  }

  lemma MatchesExactly(lower: string -> string, r: Received, term: string)
    ensures Matches(lower, r, term) <==> Found(lower, r, term)
  {
    IncludesExactly(lower(r.dto.payload), term);
    IncludesExactly(lower(r.dto.routingKey), term);
    IncludesExactly(lower(r.dto.exchange), term);
  }
}
