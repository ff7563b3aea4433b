/** Listing the actions of a rule and losing a router commute: what is left of an earlier listing is the listing of what is left. */
module AdmissionRows {
  import opened DefinitionTables
  import opened Sorting

  /** The rows whose router is still enrolled, in order. */
  function On(actions: seq<Action>, devices: set<nat>): seq<Action> {
    if actions == [] then []
    else
      var rest := On(actions[..|actions| - 1], devices);
      if actions[|actions| - 1].device in devices then rest + [actions[|actions| - 1]] else rest
  }

  lemma {:induction false} OnMembers(actions: seq<Action>, devices: set<nat>, a: Action)
    ensures a in On(actions, devices) <==> a in actions && a.device in devices
  {
    if actions != [] {
      OnMembers(actions[..|actions| - 1], devices, a);
      assert actions == actions[..|actions| - 1] + [actions[|actions| - 1]];
    }
  }

  /** Nothing is lost exactly when every router is enrolled. */
  lemma {:induction false} OnWhole(actions: seq<Action>, devices: set<nat>)
    ensures On(actions, devices) == actions <==> forall a | a in actions :: a.device in devices
  {
    if (forall a | a in actions :: a.device in devices) {
      OnAll(actions, devices);
    } else {
      var a :| a in actions && a.device !in devices;
      OnMembers(actions, devices, a);
    }
  }

  lemma {:induction false} OnAll(actions: seq<Action>, devices: set<nat>)
    requires forall a | a in actions :: a.device in devices
    ensures On(actions, devices) == actions
  {
    if actions != [] {
      var front := actions[..|actions| - 1];
      assert forall a | a in front :: a in actions;
      OnAll(front, devices);
      assert actions == front + [actions[|actions| - 1]];
    }
  }

  lemma {:induction false} OnDrop(actions: seq<Action>, devices: set<nat>, router: nat)
    ensures On(actions, devices - {router}) == OffDevice(On(actions, devices), router)
  {
    if actions != [] {
      var front, last := actions[..|actions| - 1], actions[|actions| - 1];
      OnDrop(front, devices, router);
      OffAppend(On(front, devices), last, router);
    }
  }

  lemma {:induction false} OnNew(actions: seq<Action>, devices: set<nat>, router: nat)
    requires forall a | a in actions :: a.device != router
    ensures On(actions, devices + {router}) == On(actions, devices)
  {
    if actions != [] {
      var front := actions[..|actions| - 1];
      assert forall a | a in front :: a in actions;
      OnNew(front, devices, router);
      assert actions[|actions| - 1] in actions;
    }
  }

  lemma OffAppend(actions: seq<Action>, last: Action, router: nat)
    ensures OffDevice(actions + [last], router)
         == if last.device == router then OffDevice(actions, router) else OffDevice(actions, router) + [last]
  {
    assert (actions + [last])[..|actions|] == actions;
  }

  lemma EnabledAppend(actions: seq<Action>, last: Action)
    ensures EnabledOnly(actions + [last]) == if last.enabled then EnabledOnly(actions) + [last] else EnabledOnly(actions)
  {
    assert (actions + [last])[..|actions|] == actions;
  }

  lemma {:induction false} EnabledOff(actions: seq<Action>, router: nat)
    ensures EnabledOnly(OffDevice(actions, router)) == OffDevice(EnabledOnly(actions), router)
  {
    if actions != [] {
      var front, last := actions[..|actions| - 1], actions[|actions| - 1];
      EnabledOff(front, router);
      EnabledAppend(OffDevice(front, router), last);
      OffAppend(EnabledOnly(front), last, router);
    }
  }

  lemma {:induction false} OffMembers(actions: seq<Action>, router: nat, a: Action)
    ensures a in OffDevice(actions, router) <==> a in actions && a.device != router
  {
    if actions != [] {
      OffMembers(actions[..|actions| - 1], router, a);
      assert actions == actions[..|actions| - 1] + [actions[|actions| - 1]];
    }
  }

  lemma InsertLast(s: seq<Action>, x: Action)
    requires forall y | y in s :: Position(y) <= Position(x)
    ensures Insert(s, x, Position) == s + [x]
  {
    if s != [] { assert s[|s| - 1] in s; }
  }

  lemma {:induction false} InsertOff(s: seq<Action>, x: Action, router: nat)
    requires Ascending(s, Position)
    ensures OffDevice(Insert(s, x, Position), router)
         == if x.device == router then OffDevice(s, router) else Insert(OffDevice(s, router), x, Position)
  {
    if s == [] {
    } else {
      var front, last := s[..|s| - 1], s[|s| - 1];
      if Position(x) < Position(last) {
        InsertOff(front, x, router);
        OffAppend(Insert(front, x, Position), last, router);
        if last.device != router {
          var kept := OffDevice(front, router);
          assert (kept + [last])[..|kept|] == kept;
        }
      } else {
        OffAppend(s, x, router);
        forall y | y in OffDevice(s, router) ensures Position(y) <= Position(x) {
          OffMembers(s, router, y);
          var k :| 0 <= k < |s| && s[k] == y;
          assert k < |s| - 1 ==> Position(s[k]) <= Position(last);
        }
        InsertLast(OffDevice(s, router), x);
      }
    }
  }

  lemma {:induction false} SortOff(actions: seq<Action>, router: nat)
    ensures SortBy(OffDevice(actions, router), Position) == OffDevice(SortBy(actions, Position), router)
  {
    if actions != [] {
      var front, last := actions[..|actions| - 1], actions[|actions| - 1];
      SortOff(front, router);
      SortedFacts(front, Position);
      InsertOff(SortBy(front, Position), last, router);
      var kept := OffDevice(front, router);
      assert (kept + [last])[..|kept|] == kept;
    }
  }

  /** The listing of a rule that lost a router is its old listing without the actions on that router. */
  lemma ListedOff(actions: seq<Action>, router: nat)
    ensures Listed(OffDevice(actions, router)) == OffDevice(Listed(actions), router)
  {
    EnabledOff(actions, router);
    SortOff(EnabledOnly(actions), router);
  }
}
