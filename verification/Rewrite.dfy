/** The rewriting of queries for SQLite: every `now()` becomes `datetime('now')`. */
module Rewrite {
  const NOW := "now()"
  const DATETIME := "datetime('now')"

  predicate StartsWith(s: string, t: string) {
    |t| <= |s| && s[..|t|] == t
  }

  predicate OccursAt(s: string, t: string, i: nat) {
    i <= |s| && StartsWith(s[i..], t)
  }

  ghost predicate Contains(s: string, t: string) {
    exists i: nat :: OccursAt(s, t, i)
  }

  // strings.ReplaceAll: left to right, without overlap.
  function ReplaceAll(s: string, from: string, to: string): string
    requires from != ""
    decreases |s|
  {
    if s == "" then ""
    else if StartsWith(s, from) then to + ReplaceAll(s[|from|..], from, to)
    else [s[0]] + ReplaceAll(s[1..], from, to)
  }

  function RewriteQuery(q: string): string {
    ReplaceAll(q, NOW, DATETIME)
  }

  function RestoreQuery(q: string): string {
    ReplaceAll(q, DATETIME, NOW)
  }

  ghost predicate ContainsTail(s: string, t: string) {
    s != "" && Contains(s[1..], t)
  }

  lemma Letters(s: string, t: string)
    requires StartsWith(s, t)
    ensures forall i :: 0 <= i < |t| ==> s[i] == t[i]
  {
    assert forall i :: 0 <= i < |t| ==> s[..|t|][i] == s[i];
  }

  lemma Consed(s: string, t: string)
    requires s != "" && t != "" && s[0] == t[0] && StartsWith(s[1..], t[1..])
    ensures StartsWith(s, t)
  {
    assert s[..|t|] == [s[0]] + s[1..][..|t| - 1];
  }

  lemma ContainsUnfold(s: string, t: string)
    requires t != ""
    ensures Contains(s, t) <==> StartsWith(s, t) || ContainsTail(s, t)
  {
    if StartsWith(s, t) {
      assert s[0..] == s;
      assert OccursAt(s, t, 0);
    }
    if ContainsTail(s, t) {
      var i: nat :| OccursAt(s[1..], t, i);
      assert s[1..][i..] == s[i + 1..];
      assert OccursAt(s, t, i + 1);
    }
    if Contains(s, t) {
      var i: nat :| OccursAt(s, t, i);
      if i == 0 {
        assert s[0..] == s;
      } else {
        assert s[1..][i - 1..] == s[i..];
        assert OccursAt(s[1..], t, i - 1);
      }
    }
  }

  // The rewritten text starts with w only if the text itself did, for every w in which
  // the replacement's first letter does not occur: no replacement can begin inside w,
  // so no match can straddle the border of a replacement.
  lemma {:induction false} NoStraddle(q: string, w: string)
    requires forall i :: 0 <= i < |w| ==> w[i] != 'd'
    requires StartsWith(RewriteQuery(q), w)
    ensures StartsWith(q, w)
    decreases |w|
  {
    if w != "" {
      var r := RewriteQuery(q);
      assert r[..|w|][0] == r[0] == w[0];
      if StartsWith(q, NOW) {
        assert false;  // the rewritten text would begin with 'd'
      } else {
        assert r[1..] == RewriteQuery(q[1..]);
        assert r[1..][..|w| - 1] == r[..|w|][1..];
        NoStraddle(q[1..], w[1..]);
        assert q[..|w|] == [q[0]] + q[1..][..|w| - 1];
      }
    }
  }

  // No occurrence of now() begins inside a replacement.
  lemma InsideReplacement(rest: string, i: nat)
    requires i < |DATETIME|
    ensures !StartsWith(DATETIME[i..] + rest, NOW)
  {
    var s := DATETIME[i..] + rest;
    assert s[0] == DATETIME[i];
    if i == 10 {
      assert s[3] == DATETIME[13] == '\'';
      assert NOW[3] == '(';
    } else {
      assert DATETIME[i] != 'n' && NOW[0] == 'n';
    }
    if StartsWith(s, NOW) {
      Letters(s, NOW);
    }
  }

  lemma {:induction false} SkipReplacement(rest: string, i: nat)
    requires i <= |DATETIME| && !Contains(rest, NOW)
    ensures !Contains(DATETIME[i..] + rest, NOW)
    decreases |DATETIME| - i
  {
    if i < |DATETIME| {
      InsideReplacement(rest, i);
      ContainsUnfold(DATETIME[i..] + rest, NOW);
      assert (DATETIME[i..] + rest)[1..] == DATETIME[i + 1..] + rest;
      SkipReplacement(rest, i + 1);
    } else {
      assert DATETIME[i..] + rest == rest;
    }
  }

  // Nothing SQLite does not know is left.
  lemma {:induction false} NoNowLeft(q: string)
    ensures !Contains(RewriteQuery(q), NOW)
    decreases |q|
  {
    var r := RewriteQuery(q);
    ContainsUnfold(r, NOW);
    if q == "" {
    } else if StartsWith(q, NOW) {
      NoNowLeft(q[|NOW|..]);
      SkipReplacement(RewriteQuery(q[|NOW|..]), 0);
      assert DATETIME[0..] == DATETIME;
    } else {
      NoNowLeft(q[1..]);
      assert r[1..] == RewriteQuery(q[1..]);
      if StartsWith(r, NOW) {
        NoStraddle(q, NOW);
      }
    }
  }

  lemma {:induction false} NothingToReplace(s: string, from: string, to: string)
    requires from != "" && !Contains(s, from)
    ensures ReplaceAll(s, from, to) == s
    decreases |s|
  {
    if s != "" {
      ContainsUnfold(s, from);
      NothingToReplace(s[1..], from, to);
    }
  }

  // Rewriting twice is rewriting once.
  lemma Idempotent(q: string)
    ensures RewriteQuery(RewriteQuery(q)) == RewriteQuery(q)
  {
    NoNowLeft(q);
    NothingToReplace(RewriteQuery(q), NOW, DATETIME);
  }

  // A query that mentions no datetime('now') of its own is recovered from its rewriting.
  lemma {:induction false} Recovers(q: string)
    requires !Contains(q, DATETIME)
    ensures RestoreQuery(RewriteQuery(q)) == q
    decreases |q|
  {
    if q != "" {
      var r := RewriteQuery(q);
      if StartsWith(q, NOW) {
        var rest := q[|NOW|..];
        DropKeepsAbsence(q, |NOW|);
        Recovers(rest);
        assert r[..|DATETIME|] == DATETIME && r[|DATETIME|..] == RewriteQuery(rest);
        assert q == NOW + rest;
      } else {
        ContainsUnfold(q, DATETIME);
        Recovers(q[1..]);
        if StartsWith(r, DATETIME) {
          StartsWithDatetime(q);
        }
        assert r[1..] == RewriteQuery(q[1..]);
      }
    }
  }

  lemma {:induction false} DropKeepsAbsence(q: string, n: nat)
    requires n <= |q| && !Contains(q, DATETIME)
    ensures !Contains(q[n..], DATETIME)
    decreases n
  {
    if n > 0 {
      ContainsUnfold(q, DATETIME);
      DropKeepsAbsence(q[1..], n - 1);
      assert q[1..][n - 1..] == q[n..];
    } else {
      assert q[0..] == q;
    }
  }

  lemma StartsWithDatetime(q: string)
    requires q != "" && !StartsWith(q, NOW) && StartsWith(RewriteQuery(q), DATETIME)
    ensures StartsWith(q, DATETIME)
  {
    var r, w := RewriteQuery(q), DATETIME[1..];
    assert r[1..] == RewriteQuery(q[1..]);
    assert r[1..][..|w|] == r[..|DATETIME|][1..] == w;
    NoStraddle(q[1..], w);
    assert q[0] == r[0] == r[..|DATETIME|][0] == 'd';
    Consed(q, DATETIME);
  }

  // --- And no other query is recovered ---

  // A proper tail of datetime('now') never starts a text that begins with now().
  lemma OnlyTailWithN(i: nat, r: string)
    requires 1 <= i < |DATETIME| && StartsWith(r, NOW)
    ensures !StartsWith(r, DATETIME[i..])
  {
    var w := DATETIME[i..];
    assert if i == 10 then |w| == 5 && w[3] == '\'' else w[0] != 'n';
    Letters(r, NOW);
    if StartsWith(r, w) {
      Letters(r, w);
    }
  }

  // Restoring starts with a proper tail of datetime('now') only if the text already did.
  lemma {:induction false} NoStraddleBack(s: string, i: nat)
    requires 1 <= i <= |DATETIME| && StartsWith(RestoreQuery(s), DATETIME[i..])
    ensures StartsWith(s, DATETIME[i..])
    decreases |s|
  {
    var w, r := DATETIME[i..], RestoreQuery(s);
    if i < |DATETIME| {
      assert r[..|w|][0] == r[0] == w[0] == DATETIME[i];
      if StartsWith(s, DATETIME) {
        OnlyTailWithN(i, r);
      } else {
        assert r[1..] == RestoreQuery(s[1..]);
        assert r[1..][..|w| - 1] == r[..|w|][1..] == DATETIME[i + 1..];
        NoStraddleBack(s[1..], i + 1);
        assert s[..|w|] == [s[0]] + s[1..][..|w| - 1];
      }
    }
  }

  lemma {:induction false} SkipNow(rest: string, i: nat)
    requires i <= |NOW| && !Contains(rest, DATETIME)
    ensures !Contains(NOW[i..] + rest, DATETIME)
    decreases |NOW| - i
  {
    var s := NOW[i..] + rest;
    if i < |NOW| {
      ContainsUnfold(s, DATETIME);
      assert s[0] == NOW[i] != 'd';
      if StartsWith(s, DATETIME) {
        Letters(s, DATETIME);
      }
      assert s[1..] == NOW[i + 1..] + rest;
      SkipNow(rest, i + 1);
    } else {
      assert s == rest;
    }
  }

  lemma {:induction false} NoDatetimeLeft(s: string)
    ensures !Contains(RestoreQuery(s), DATETIME)
    decreases |s|
  {
    var r := RestoreQuery(s);
    ContainsUnfold(r, DATETIME);
    if s == "" {
    } else if StartsWith(s, DATETIME) {
      NoDatetimeLeft(s[|DATETIME|..]);
      SkipNow(RestoreQuery(s[|DATETIME|..]), 0);
      assert NOW[0..] == NOW;
    } else {
      NoDatetimeLeft(s[1..]);
      assert r[1..] == RestoreQuery(s[1..]);
      if StartsWith(r, DATETIME) {
        assert s[0] == r[0] == r[..|DATETIME|][0] == 'd';
        assert r[1..][..|DATETIME| - 1] == r[..|DATETIME|][1..] == DATETIME[1..];
        NoStraddleBack(s[1..], 1);
        Consed(s, DATETIME);
      }
    }
  }

  // Putting now() back undoes the rewriting exactly for the queries that mention no
  // datetime('now') of their own.
  lemma RecoversIff(q: string)
    ensures RestoreQuery(RewriteQuery(q)) == q <==> !Contains(q, DATETIME)
  {
    if Contains(q, DATETIME) {
      NoDatetimeLeft(RewriteQuery(q));
    } else {
      Recovers(q);
    }
  }
}
