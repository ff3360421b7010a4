/**
 A run in which a sibling is forced idle next to a runnable task that matches
 the winner: the search goes through the tasks with a cookie only.
 */
module CoreForced {
  import opened Common
  import opened CorePick

  /** Tasks 0 and 2 have no cookie, task 1 has cookie 5. */
  function Cookies(): seq<nat> { [0, 5, 0] }

  function Off(core: Cpu): Rq { Rq(Offline, core, Idle, None, 0, {}, {}, false, 0, 0, 0, 0) }

  /** Both siblings run idle with these tasks queued; CPU 0 leads. */
  function Both(mine: set<TaskId>, others: set<TaskId>, tree: set<TaskId>, taskSeq: nat): State
  {
    State([Off(0).(status := Online, queue := mine, taskSeq := taskSeq),
           Off(0).(status := Online, queue := others, tree := tree)], Cookies())
  }

  function Picks(): seq<Who> { [Thread(0), Thread(1)] }

  function ForcedSteps(): seq<Step>
  {
    [Starting(0), Starting(1), Enqueue(0, 0), Enqueue(1, 1), Enqueue(1, 2), PickCore(1, Picks(), [Idle, Idle], 0)]
  }

  function ForcedTrace(): seq<State>
  {
    [State([Off(0), Off(1)], Cookies()), State([Off(0).(status := Online), Off(1)], Cookies()), Both({}, {}, {}, 0),
     Both({0}, {}, {}, 1), Both({0}, {1}, {1}, 2), Both({0}, {1, 2}, {1}, 3),
     CorePicked(Both({0}, {1, 2}, {1}, 3), 1, Picks(), [Idle, Idle], 0)]
  }

  lemma ForcedUp()
    ensures Init(ForcedTrace()[0])
    ensures Follows(ForcedTrace(), ForcedSteps(), 0) && Follows(ForcedTrace(), ForcedSteps(), 1)
  {
    var none: set<TaskId> := {};
    assert Cookied(ForcedTrace()[0], none) == none;
    var t := ForcedTrace();
    assert Apply(t[0], Starting(0)).rqs == t[1].rqs;
    assert Leads(t[1], 0);
    assert Apply(t[1], Starting(1)).rqs == t[2].rqs;
  }

  lemma QueueHere(n: nat)
    ensures Enabled(Both({}, {}, {}, n), Enqueue(0, 0))
    ensures Apply(Both({}, {}, {}, n), Enqueue(0, 0)) == Both({0}, {}, {}, n + 1)
  {
    var none: set<TaskId> := {};
    assert none + {0} == {0};
    assert Apply(Both({}, {}, {}, n), Enqueue(0, 0)).rqs == Both({0}, {}, {}, n + 1).rqs;
  }

  lemma QueueThere(others: set<TaskId>, tree: set<TaskId>, n: nat, t: TaskId)
    requires t in {1, 2} && t !in others
    ensures
      var s, r := Both({0}, others, tree, n), Both({0}, others + {t}, if t == 1 then tree + {t} else tree, n + 1);
      Enabled(s, Enqueue(1, t)) && Apply(s, Enqueue(1, t)) == r
  {
    var s, r := Both({0}, others, tree, n), Both({0}, others + {t}, if t == 1 then tree + {t} else tree, n + 1);
    assert Apply(s, Enqueue(1, t)).rqs == r.rqs;
  }

  lemma ForcedQueues()
    ensures Follows(ForcedTrace(), ForcedSteps(), 2)
    ensures Follows(ForcedTrace(), ForcedSteps(), 3) && Follows(ForcedTrace(), ForcedSteps(), 4)
  {
    var none: set<TaskId> := {};
    QueueHere(0);
    QueueThere({}, {}, 1, 1);
    QueueThere({1}, {1}, 2, 2);
    assert none + {1} == {1} && {1} + {2} == {1, 2};
  }

  lemma ForcedPick()
    ensures Follows(ForcedTrace(), ForcedSteps(), 5)
  {
  }

  /** Task 0 wins without a cookie; CPU 1 picked task 1 and goes idle although task 2, queued there, matches. */
  lemma ForcedRun()
    ensures Run(ForcedTrace(), ForcedSteps())
    ensures
      var s := ForcedTrace()[5];
      && CookieOf(s, Picks()[0]) == 0 == s.cookies[2] && 2 in s.rqs[1].queue
      && Final(s, 1, Picks(), [Idle, Idle], 0) == Idle && 1 in ForcedIdle(s, Picks(), [Idle, Idle], 0)
  {
    ForcedUp();
    ForcedQueues();
    ForcedPick();
    forall n | 0 <= n < 6 ensures Follows(ForcedTrace(), ForcedSteps(), n) { assert n in {0, 1, 2, 3, 4, 5}; }
  }
}
