/** The connectivity record: what the client believes, and when it last changed its mind. */
module Connectivity {
  datatype Change = Change(online: bool, at: int)

  datatype Status = Status(online: bool, lastCheck: int, lastOnline: int, lastOffline: int)

  /** The zero time, before every clock reading. */
  const ZERO_TIME := 0

  function Initial(start: int): Status { Status(true, start, ZERO_TIME, ZERO_TIME) }

  function Replay(s: Status, updates: seq<Change>): Status
    decreases |updates|
  {
    if updates == [] then s
    else
      var p := Replay(s, updates[..|updates| - 1]);
      var u := updates[|updates| - 1];
      Status(u.online, u.at,
             if u.online && !p.online then u.at else p.lastOnline,
             if !u.online && p.online then u.at else p.lastOffline)
  }

  class ConnectivityState {
    var online: bool
    var lastCheck: int
    var lastOnline: int
    var lastOffline: int
    ghost const start: int
    ghost var trace: seq<Change>

    /** The record is what its update trace says it is. */
    ghost predicate Valid()
      reads this
    {
      Status(online, lastCheck, lastOnline, lastOffline) == Replay(Initial(start), trace)
    }

    constructor (now: int)
      ensures Valid() && online && trace == [] && start == now
    {
      online, lastCheck, lastOnline, lastOffline := true, now, ZERO_TIME, ZERO_TIME;
      start, trace := now, [];
    }

    method Update(up: bool, now: int)
      requires Valid()
      modifies this
      ensures Valid() && trace == old(trace) + [Change(up, now)]
      ensures online == up
    {
      var wasOnline := online;
      lastCheck := now;
      online := up;
      if up && !wasOnline {
        lastOnline := now;
      } else if !up && wasOnline {
        lastOffline := now;
      }
      trace := trace + [Change(up, now)];
    }
  }

  // ---- The history ----

  ghost predicate Monotone(start: int, updates: seq<Change>) {
    && ZERO_TIME <= start
    && (forall i :: 0 <= i < |updates| ==> start <= updates[i].at)
    && (forall i, j :: 0 <= i <= j < |updates| ==> updates[i].at <= updates[j].at)
  }

  /** The i-th update turned the client online (up) or offline; it starts online. */
  predicate FlipAt(updates: seq<Change>, up: bool, i: int) {
    0 <= i < |updates| && updates[i].online == up && (if i == 0 then true else updates[i - 1].online) != up
  }

  ghost predicate IsLatestFlip(updates: seq<Change>, up: bool, t: int) {
    if exists i :: FlipAt(updates, up, i)
    then exists i :: FlipAt(updates, up, i) && updates[i].at == t && forall j :: FlipAt(updates, up, j) ==> j <= i
    else t == ZERO_TIME
  }

  lemma LatestFlipSnoc(updates: seq<Change>, u: Change, up: bool, t: int)
    requires IsLatestFlip(updates, up, t)
    ensures var all := updates + [u]; IsLatestFlip(all, up, if FlipAt(all, up, |updates|) then u.at else t)
  {
    var all := updates + [u];
    assert forall i :: 0 <= i < |updates| ==> FlipAt(all, up, i) == FlipAt(updates, up, i);
    if FlipAt(all, up, |updates|) {
    } else if i :| FlipAt(updates, up, i) && updates[i].at == t && forall j :: FlipAt(updates, up, j) ==> j <= i {
      assert FlipAt(all, up, i);
    }
  }

  /**
   With a monotone clock every reachable record orders its stamps, agrees with itself about
   the last change, and stamps exactly the latest flip in each direction.
   */
  lemma {:induction false} History(start: int, updates: seq<Change>)
    requires Monotone(start, updates)
    ensures var s := Replay(Initial(start), updates);
      && s.lastOnline <= s.lastCheck && s.lastOffline <= s.lastCheck
      && (s.online ==> s.lastOnline >= s.lastOffline)
      && (!s.online ==> s.lastOffline >= s.lastOnline)
      && s.online == (if updates == [] then true else updates[|updates| - 1].online)
      && s.lastCheck == (if updates == [] then start else updates[|updates| - 1].at)
      && IsLatestFlip(updates, true, s.lastOnline)
      && IsLatestFlip(updates, false, s.lastOffline)
    decreases |updates|
  {
    if updates != [] {
      var n := |updates| - 1;
      var init := updates[..n];
      History(start, init);
      assert updates == init + [updates[n]];
      var p := Replay(Initial(start), init);
      LatestFlipSnoc(init, updates[n], true, p.lastOnline);
      LatestFlipSnoc(init, updates[n], false, p.lastOffline);
    }
  }

  /** The record's flag is the last update's. */
  lemma OnlineIsLast(start: int, updates: seq<Change>)
    ensures Replay(Initial(start), updates).online == (updates == [] || updates[|updates| - 1].online)
  {
  }
}
