/**
 The three loops of the core-wide pick, run in place on the runqueues of a
 core, compute exactly the CorePicked step of the protocol.
 */
module CorePickLoops {
  import opened Common
  import opened CorePick
  import opened CorePrio

  /** The first loop: every sibling's class pick is noted, and one of them wins. */
  method ClassPicks(rqs: array<Rq>, i: Cpu, picks: seq<Who>, e: Prios) returns (max: Cpu)
    requires |picks| == rqs.Length && i < rqs.Length && OnCore(rqs[i])
    modifies rqs
    ensures max == Winner(old(rqs[..]), e, i, picks, |picks|)
    ensures forall j :: 0 <= j < rqs.Length ==>
      rqs[j] == if OnCore(old(rqs[j])) then old(rqs[j]).(pick := Some(picks[j])) else old(rqs[j])
  {
    ghost var was := rqs[..];
    var n := rqs.Length;
    max := i;
    var k := 0;
    while k < n
      invariant k <= n && max == Winner(was, e, i, picks, k)
      invariant forall j :: 0 <= j < n ==> rqs[j] == Noted(was, i, picks, k, j)
    {
      var j := Turn(n, i, k);
      forall u | 0 <= u < n ensures Noted(was, i, picks, k + 1, u) == Marked(was, i, picks, k, j, u) {}
      if rqs[j].status == Online || rqs[j].status == Leaving {
        rqs[j] := rqs[j].(pick := Some(picks[j]));
        if PrioLess(e, picks[max], picks[j]) {
          max := j;
        }
      }
      k := k + 1;
    }
  }

  function Noted(was: seq<Rq>, i: Cpu, picks: seq<Who>, k: nat, j: Cpu): Rq
    requires j < |was| == |picks|
  {
    if Seen(was, i, k, j) then was[j].(pick := Some(picks[j])) else was[j]
  }

  /** One more round, which visits turn. */
  function Marked(was: seq<Rq>, i: Cpu, picks: seq<Who>, k: nat, turn: Cpu, j: Cpu): Rq
    requires j < |was| == |picks|
  {
    if j == turn && OnCore(was[j]) then was[j].(pick := Some(picks[j])) else Noted(was, i, picks, k, j)
  }

  /** Forced idle among the first k siblings. */
  ghost function ForcedBelow(s: State, picks: seq<Who>, found: seq<Who>, cookie: nat, k: nat): set<Cpu>
    requires |picks| == |found| == |s.rqs| && k <= |s.rqs|
  {
    set j | 0 <= j < k && InMask(s, j) && s.rqs[j].queue != {} && Final(s, j, picks, found, cookie) == Idle
  }

  lemma ForcedNext(s: State, picks: seq<Who>, found: seq<Who>, cookie: nat, k: nat)
    requires |picks| == |found| == |s.rqs| && k < |s.rqs|
    ensures var idle := InMask(s, k) && s.rqs[k].queue != {} && Final(s, k, picks, found, cookie) == Idle;
      |ForcedBelow(s, picks, found, cookie, k + 1)| == |ForcedBelow(s, picks, found, cookie, k)| + if idle then 1 else 0
  {
    var below := ForcedBelow(s, picks, found, cookie, k);
    var idle := InMask(s, k) && s.rqs[k].queue != {} && Final(s, k, picks, found, cookie) == Idle;
    assert ForcedBelow(s, picks, found, cookie, k + 1) == if idle then below + {k} else below;
  }

  /** The second loop: match the winner's cookie or force idle; the leader counts the forced-idle siblings. */
  method MatchCookie(rqs: array<Rq>, cookies: seq<nat>, picks: seq<Who>, found: seq<Who>, cookie: nat)
    returns (forced: nat)
    requires |picks| == |found| == rqs.Length
    requires forall j :: 0 <= j < rqs.Length && InMask(State(rqs[..], cookies), j) ==> rqs[j].pick == Some(picks[j])
    modifies rqs
    ensures forced == |ForcedIdle(old(State(rqs[..], cookies)), picks, found, cookie)|
    ensures var s := old(State(rqs[..], cookies)); forall j :: 0 <= j < rqs.Length ==>
      rqs[j] == if InMask(s, j) then s.rqs[j].(pick := Some(Final(s, j, picks, found, cookie))) else s.rqs[j]
  {
    ghost var s := State(rqs[..], cookies);
    forced := 0;
    var j := 0;
    while j < rqs.Length
      invariant j <= rqs.Length && forced == |ForcedBelow(s, picks, found, cookie, j)|
      invariant forall u :: 0 <= u < rqs.Length ==>
        rqs[u] == if u < j && InMask(s, u) then s.rqs[u].(pick := Some(Final(s, u, picks, found, cookie))) else s.rqs[u]
    {
      ForcedNext(s, picks, found, cookie, j);
      if rqs[j].status == Online || rqs[j].status == Leaving {
        var p := rqs[j].pick.value;
        if !CookieEquals(State([], cookies), p, cookie) {
          p := if cookie != 0 then found[j] else Idle;
        }
        rqs[j] := rqs[j].(pick := Some(p));
        if p == Idle && rqs[j].queue != {} {
          forced := forced + 1;
        }
      }
      j := j + 1;
    }
    assert ForcedBelow(s, picks, found, cookie, rqs.Length) == ForcedIdle(s, picks, found, cookie);
  }

  /** The third loop: take our own pick, drop picks that already run, kick the siblings that have to change. */
  method KickSiblings(rqs: array<Rq>, i: Cpu, n: nat, ghost was: State, ghost ws: seq<Who>) returns (next: Who)
    requires |was.rqs| == rqs.Length == |ws| && i < rqs.Length && InMask(was, i)
    requires forall j :: 0 <= j < rqs.Length ==>
      rqs[j] == if InMask(was, j) then was.rqs[j].(pick := Some(ws[j])) else was.rqs[j]
    modifies rqs
    ensures next == ws[i]
    ensures forall j :: 0 <= j < rqs.Length ==> rqs[j] == Resettled(was, i, j, ws[j], n)
  {
    next := rqs[i].pick.value;
    var j := 0;
    while j < rqs.Length
      invariant j <= rqs.Length
      invariant forall u :: 0 <= u < rqs.Length ==>
        rqs[u] == if u < j then Resettled(was, i, u, ws[u], n)
                  else if InMask(was, u) then was.rqs[u].(pick := Some(ws[u])) else was.rqs[u]
    {
      if rqs[j].status == Online || rqs[j].status == Leaving {
        if j == i {
          rqs[j] := rqs[j].(curr := next, pick := None, schedSeq := n, resched := false);
        } else if rqs[j].curr == rqs[j].pick.value {
          rqs[j] := rqs[j].(pick := None);
        } else {
          rqs[j] := rqs[j].(resched := true);
        }
      }
      j := j + 1;
    }
  }

  /** The noted class picks change neither the mask nor the final picks nor the forced-idle set. */
  lemma PicksNoted(s: State, s': State, picks: seq<Who>, found: seq<Who>, cookie: nat)
    requires |picks| == |found| == |s.rqs| == |s'.rqs| && s'.cookies == s.cookies
    requires forall j :: 0 <= j < |s.rqs| ==> s'.rqs[j] == s.rqs[j].(pick := s'.rqs[j].pick)
    ensures forall j :: 0 <= j < |s.rqs| ==> InMask(s', j) == InMask(s, j)
    ensures forall j :: 0 <= j < |s.rqs| ==> Final(s', j, picks, found, cookie) == Final(s, j, picks, found, cookie)
    ensures ForcedIdle(s', picks, found, cookie) == ForcedIdle(s, picks, found, cookie)
  {
  }

  /** What the loops leave behind, put together with the leader's new shared state. */
  lemma Assembled(s: State, i: Cpu, picks: seq<Who>, found: seq<Who>, max: Cpu, rqs: seq<Rq>, forced: nat)
    requires Member(s, i) && |picks| == |found| == |s.rqs| == |rqs| && max < |s.rqs|
    requires var cookie := CookieOf(s, picks[max]); var n := Leader(s, i).taskSeq + 1;
      && forced == |ForcedIdle(s, picks, found, cookie)|
      && forall j :: 0 <= j < |rqs| ==> rqs[j] == Resettled(s, i, j, Final(s, j, picks, found, cookie), n)
    ensures var l := s.rqs[i].core; var n := s.rqs[l].taskSeq + 1;
      s.(rqs := rqs[l := rqs[l].(taskSeq := n, pickSeq := n, cookie := CookieOf(s, picks[max]), forced := forced)])
      == CorePicked(s, i, picks, found, max)
  {
    var cookie := CookieOf(s, picks[max]);
    var n := Leader(s, i).taskSeq + 1;
    assert rqs == seq(|s.rqs|, j requires 0 <= j < |s.rqs| => Resettled(s, i, j, Final(s, j, picks, found, cookie), n));
  }

  /** The first two loops: a winner, and for every sibling the final pick under its cookie. */
  method ChoosePicks(rqs: array<Rq>, cookies: seq<nat>, i: Cpu, picks: seq<Who>, found: seq<Who>, e: Prios)
    returns (max: Cpu, forced: nat)
    requires i < rqs.Length == |picks| == |found| && OnCore(rqs[i])
    modifies rqs
    ensures max == Winner(old(rqs[..]), e, i, picks, |picks|)
    ensures var s := old(State(rqs[..], cookies)); var cookie := CookieOf(s, picks[max]);
      && forced == |ForcedIdle(s, picks, found, cookie)|
      && forall j :: 0 <= j < rqs.Length ==>
           rqs[j] == if InMask(s, j) then s.rqs[j].(pick := Some(Final(s, j, picks, found, cookie))) else s.rqs[j]
  {
    ghost var s := State(rqs[..], cookies);
    max := ClassPicks(rqs, i, picks, e);
    var cookie := CookieOf(State([], cookies), picks[max]);
    PicksNoted(s, State(rqs[..], cookies), picks, found, cookie);
    forced := MatchCookie(rqs, cookies, picks, found, cookie);
  }

  /** pick_next_task() past its fast paths, on the runqueues themselves. */
  method PickCoreWide(rqs: array<Rq>, cookies: seq<nat>, i: Cpu, picks: seq<Who>, found: seq<Who>, e: Prios)
    returns (next: Who, max: Cpu)
    requires Member(State(rqs[..], cookies), i) && |picks| == |found| == rqs.Length
    modifies rqs
    ensures max == Winner(old(rqs[..]), e, i, picks, |picks|) && InMask(old(State(rqs[..], cookies)), max)
    ensures State(rqs[..], cookies) == CorePicked(old(State(rqs[..], cookies)), i, picks, found, max)
    ensures next == rqs[i].curr
  {
    ghost var s := State(rqs[..], cookies);
    var l := rqs[i].core;
    var n := rqs[l].taskSeq + 1;
    var forced;
    max, forced := ChoosePicks(rqs, cookies, i, picks, found, e);
    var cookie := CookieOf(State([], cookies), picks[max]);
    ghost var ws := seq(rqs.Length, j requires 0 <= j < rqs.Length => Final(s, j, picks, found, cookie));
    next := KickSiblings(rqs, i, n, s, ws);
    Assembled(s, i, picks, found, max, rqs[..], forced);
    rqs[l] := rqs[l].(taskSeq := n, pickSeq := n, cookie := cookie, forced := forced);
  }
}
