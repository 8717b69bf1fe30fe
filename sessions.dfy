/**
 * The active-session list of src/screens/SecurityScreen.tsx and the two ways the screen
 * narrows it: revoking one session and revoking every other session. Both are
 * `Array.prototype.filter` over the list the screen holds.
 */
module Sessions {
  import opened Outcomes

  /** One row of the list: the session's id and what the row displays (`userAgent`, `ultimoAcesso`). */
  datatype Session = Session(id: string, userAgent: Option<string>, lastAccess: Option<string>)

  /** `sessions.filter(keep)`: the elements that pass, in their original order. */
  function Filter(xs: seq<Session>, keep: Session -> bool): (r: seq<Session>)
    ensures |r| <= |xs|
  {
    if xs == [] then [] else (if keep(xs[0]) then [xs[0]] else []) + Filter(xs[1..], keep)
  }

  /** An element survives the filter exactly when it was in the list and passes. */
  lemma {:induction false} FilterMembers(xs: seq<Session>, keep: Session -> bool, x: Session)
    ensures x in Filter(xs, keep) <==> x in xs && keep(x)
  {
    if xs != [] {
      FilterMembers(xs[1..], keep, x);
      assert xs == [xs[0]] + xs[1..];
    }
  }

  /** Filtering a concatenation filters each part and keeps the parts in order. */
  lemma {:induction false} FilterAppend(xs: seq<Session>, ys: seq<Session>, keep: Session -> bool)
    ensures Filter(xs + ys, keep) == Filter(xs, keep) + Filter(ys, keep)
  {
    if xs != [] {
      var head := if keep(xs[0]) then [xs[0]] else [];
      assert (xs + ys)[0] == xs[0];
      assert (xs + ys)[1..] == xs[1..] + ys;
      FilterAppend(xs[1..], ys, keep);
      calc {
        Filter(xs + ys, keep);
        head + Filter(xs[1..] + ys, keep);
        head + (Filter(xs[1..], keep) + Filter(ys, keep));
        (head + Filter(xs[1..], keep)) + Filter(ys, keep);
      }
    } else {
      assert xs + ys == ys;
    }
  }

  /** Everything the filter keeps passes the test. */
  lemma {:induction false} FilterPasses(xs: seq<Session>, keep: Session -> bool)
    ensures forall i :: 0 <= i < |Filter(xs, keep)| ==> keep(Filter(xs, keep)[i])
  {
    if xs != [] {
      FilterPasses(xs[1..], keep);
    }
  }

  /** A list whose every element passes is kept whole. */
  lemma {:induction false} FilterAll(xs: seq<Session>, keep: Session -> bool)
    requires forall i :: 0 <= i < |xs| ==> keep(xs[i])
    ensures Filter(xs, keep) == xs
  {
    if xs != [] {
      FilterAll(xs[1..], keep);
    }
  }

  /** What passes is counted once: the passing and the failing elements make up the whole list. */
  lemma {:induction false} FilterSplit(xs: seq<Session>, keep: Session -> bool, drop: Session -> bool)
    requires forall x :: drop(x) == !keep(x)
    ensures multiset(Filter(xs, keep)) + multiset(Filter(xs, drop)) == multiset(xs)
  {
    if xs != [] {
      FilterSplit(xs[1..], keep, drop);
      assert xs == [xs[0]] + xs[1..];
    }
  }

  /** `session.id === currentSessionId`: while the current id is null no session is current. */
  predicate IsCurrent(s: Session, current: Option<string>) {
    current.Some? && s.id == current.value
  }

  /** The tests the screen filters with: `session.id !== id`, current, and not current. */
  function OtherThan(id: string): Session -> bool {
    (s: Session) => s.id != id
  }

  function Current(current: Option<string>): Session -> bool {
    (s: Session) => IsCurrent(s, current)
  }

  function NotCurrent(current: Option<string>): Session -> bool {
    (s: Session) => !IsCurrent(s, current)
  }

  /** `handleRevokeSession(id)` on success: the list without the sessions called `id`. */
  function WithoutSession(sessions: seq<Session>, id: string): seq<Session> {
    Filter(sessions, OtherThan(id))
  }

  /** `handleRevokeOthers` on success: only the sessions whose id is the current one. */
  function OnlyCurrent(sessions: seq<Session>, current: Option<string>): seq<Session> {
    Filter(sessions, Current(current))
  }

  /** The rows that offer a "Deslogar" button: the sessions that are not current. */
  function Revocable(sessions: seq<Session>, current: Option<string>): seq<Session> {
    Filter(sessions, NotCurrent(current))
  }

  /** Revoking one session removes exactly the sessions with its id and keeps the others in their order. */
  lemma RevokeOne(before: seq<Session>, s: Session, after: seq<Session>)
    requires forall i :: 0 <= i < |before| ==> before[i].id != s.id
    requires forall i :: 0 <= i < |after| ==> after[i].id != s.id
    ensures WithoutSession(before + [s] + after, s.id) == before + after
  {
    var keep := OtherThan(s.id);
    assert before + [s] + after == before + ([s] + after);
    FilterAppend(before, [s] + after, keep);
    FilterAppend([s], after, keep);
    assert Filter([s], keep) == [] by {
      assert [s][1..] == [];
    }
    FilterAll(before, keep);
    FilterAll(after, keep);
  }

  /** Revoking is idempotent: once gone, revoking the same id again changes nothing. */
  lemma RevokeTwice(sessions: seq<Session>, id: string)
    ensures WithoutSession(WithoutSession(sessions, id), id) == WithoutSession(sessions, id)
  {
    var r := WithoutSession(sessions, id);
    FilterPasses(sessions, OtherThan(id));
    FilterAll(r, OtherThan(id));
  }

  /** Revoking the others twice is revoking them once. */
  lemma RevokeOthersTwice(sessions: seq<Session>, current: Option<string>)
    ensures OnlyCurrent(OnlyCurrent(sessions, current), current) == OnlyCurrent(sessions, current)
  {
    var r := OnlyCurrent(sessions, current);
    FilterPasses(sessions, Current(current));
    FilterAll(r, Current(current));
  }

  /** While no current id is known, revoking the others empties the list. */
  lemma {:induction false} RevokeOthersWithoutCurrent(sessions: seq<Session>)
    ensures OnlyCurrent(sessions, None) == []
  {
    if sessions != [] {
      RevokeOthersWithoutCurrent(sessions[1..]);
    }
  }

  /** Every session is either the current one or offers a revoke button, never both, never neither. */
  lemma CurrentOrRevocable(sessions: seq<Session>, current: Option<string>)
    ensures multiset(OnlyCurrent(sessions, current)) + multiset(Revocable(sessions, current)) == multiset(sessions)
    ensures |OnlyCurrent(sessions, current)| + |Revocable(sessions, current)| == |sessions|
  {
    FilterSplit(sessions, Current(current), NotCurrent(current));
    assert |multiset(OnlyCurrent(sessions, current))| == |OnlyCurrent(sessions, current)|;
    assert |multiset(Revocable(sessions, current))| == |Revocable(sessions, current)|;
    assert |multiset(sessions)| == |sessions|;
  }

  /** Revoking a session offered for revoking never takes away the current session. */
  lemma {:induction false} RevokeSparesCurrent(sessions: seq<Session>, current: Option<string>, target: Session)
    requires target in Revocable(sessions, current)
    ensures OnlyCurrent(WithoutSession(sessions, target.id), current) == OnlyCurrent(sessions, current)
  {
    FilterMembers(sessions, NotCurrent(current), target);
    SparesCurrent(sessions, current, target.id);
  }

  lemma {:induction false} SparesCurrent(sessions: seq<Session>, current: Option<string>, id: string)
    requires current != Some(id)
    ensures OnlyCurrent(WithoutSession(sessions, id), current) == OnlyCurrent(sessions, current)
  {
    if sessions != [] {
      SparesCurrent(sessions[1..], current, id);
      var s := sessions[0];
      var head := if s.id != id then [s] else [];
      assert WithoutSession(sessions, id) == head + WithoutSession(sessions[1..], id);
      FilterAppend(head, WithoutSession(sessions[1..], id), Current(current));
      if head != [] {
        assert head[1..] == [];
      }
    }
  }
}
