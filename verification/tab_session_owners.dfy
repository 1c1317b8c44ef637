/**
 Whose a tab is, read off the steps taken: which steps give a client a tab and which take it away, and what the ends of
 sessions leave behind.
 */
module TabSessionOwners {
  import opened Options
  import opened TabSessions
  import opened TabSessionRuns
  import opened TabSessionHistory

  // ---- one step ----

  /** The client whose the step makes `t`: a new session's tab, one opened for it, or one adopted into a session of its. */
  function Gainer(s: State, step: Step, t: TabId): Option<ClientId> {
    match step
    case StartCommitted(c, _, _) => if c in s.commands && s.commands[c] == Grouping(t) then Some(c) else None
    case OpenCommitted(c) => if c in s.commands && s.commands[c].OpenGrouping? && s.commands[c].tab == t then Some(c) else None
    case Adopted(u) => if u == t && t in s.adopting && s.adopting[t] in s.objs then Some(s.objs[s.adopting[t]].client) else None
    case _ => None
  }

  /** The tab is found outside the group of the session it belongs to. */
  predicate DraggedOut(s: State, t: TabId, group: GroupId) {
    t in s.owner && IsLive(s, s.owner[t]) && group != Live(s, s.owner[t]).group
  }

  /** The step leaves `t` to nobody: it is gone, dragged out or closed, or the session that listed it ends, or a new one is
      about to begin. */
  predicate Frees(s: State, step: Step, t: TabId) {
    match step
    case Removed(u) => u == t
    case Regrouped(u, group) => u == t && DraggedOut(s, t, group)
    case CloseCommitted(c) => c in s.commands && s.commands[c].Closing? && s.commands[c].tab == t
    case EndResumed(c) => c in s.commands && s.commands[c].Ending? && t in s.commands[c].ids
    case PopupResumed(i) => i < |s.popups| && t in s.popups[i].ids
    case GroupRemoved(c) => IsLive(s, c) && t in Live(s, c).tabs
    case CleanResumed(c) => c in s.commands && s.commands[c].Cleaning? && s.commands[c].left != [] && s.commands[c].left[0] == t
    case _ => false
  }

  predicate FromBrowser(step: Step) {
    step.Removed? || step.Regrouped? || step.GroupRemoved? || step.TabCreated? || step.Adopted? || step.AdoptionFailed?
  }

  /** Nobody gains a tab that is another's. */
  predicate NoTakeover(s: State, step: Step, t: TabId) {
    Gainer(s, step, t).Some? && t in s.owner ==> s.owner[t] == Gainer(s, step, t).value
  }

  lemma TabsKeepTheirHome(s: State, step: Step, t: TabId)
    requires Inv(s) && Enabled(s, step)
    ensures NoTakeover(s, step, t)
    ensures step.OpenCommitted? ==> s.objs[s.commands[step.client].ref].client == step.client
  {
    assert t in s.owner ==> Homed(s, t, s.owner[t]);
    assert step.StartCommitted? || step.OpenCommitted? ==> CommandSound(s, step.client, s.commands[step.client]);
  }

  lemma OwnersFromBrowser(s: State, step: Step, t: TabId, c: ClientId)
    requires Enabled(s, step) && FromBrowser(step) && NoTakeover(s, step, t)
    ensures Owns(Next(s, step), c, t) <==> Gainer(s, step, t) == Some(c) || (Owns(s, c, t) && !Frees(s, step, t))
  {
    hide Released, Add;
  }

  lemma OwnersFromCommands(s: State, step: Step, t: TabId, c: ClientId)
    requires Enabled(s, step) && !FromBrowser(step) && NoTakeover(s, step, t)
    requires step.OpenCommitted? ==> s.objs[s.commands[step.client].ref].client == step.client
    ensures Owns(Next(s, step), c, t) <==> Gainer(s, step, t) == Some(c) || (Owns(s, c, t) && !Frees(s, step, t))
  {
    hide Without, Add, Current;
  }

  /** In every interleaving, what a step does to whose a tab is: it is the client's that gains it, or stays whose it was
      unless the step frees it. */
  lemma OwnersAreGainedAndFreed(s: State, step: Step, t: TabId, c: ClientId)
    requires Inv(s) && Enabled(s, step)
    ensures Owns(Next(s, step), c, t) <==> Gainer(s, step, t) == Some(c) || (Owns(s, c, t) && !Frees(s, step, t))
  {
    hide Inv, Next, Enabled, Gainer, Frees, Owns, NoTakeover;
    TabsKeepTheirHome(s, step, t);
    if FromBrowser(step) {
      OwnersFromBrowser(s, step, t, c);
    } else {
      OwnersFromCommands(s, step, t, c);
    }
  }

  // ---- what an end leaves behind ----

  /** The client has no session, and nobody has any of the tabs. */
  ghost predicate Over(s: State, c: ClientId, tabs: seq<TabId>) {
    !IsLive(s, c) && forall t, d :: t in tabs ==> !Owns(s, d, t)
  }

  /** Between the two points of the run the client's command does not move. */
  ghost predicate Rests(steps: seq<Step>, m: nat, n: nat, c: ClientId)
    requires n <= |steps|
  {
    forall k :: m <= k < n ==> !OwnStep(steps[k], c)
  }

  lemma {:induction false} CommandStays(states: seq<State>, steps: seq<Step>, m: nat, n: nat, c: ClientId)
    requires IsRun(states, steps) && m <= n <= |steps| && n < |states| && Rests(steps, m, n, c) && c in states[m].commands
    ensures c in states[n].commands && states[n].commands[c] == states[m].commands[c]
    decreases n - m
  {
    hide IsRun, Next, Enabled, OwnStep, Inv;
    if m < n {
      CommandStays(states, steps, m, n - 1, c);
      RunStep(states, steps, n - 1);
      OthersLeaveTheCommand(states[n - 1], steps[n - 1], c);
    }
  }

  lemma RunLength(states: seq<State>, steps: seq<Step>)
    requires IsRun(states, steps)
    ensures |states| == |steps| + 1
  {
    hide Next, Enabled, Loaded;
  }

  lemma EndBegins(s: State, step: Step, c: ClientId)
    requires Enabled(s, step) && step in {BeginEnd(c), BeginStart(c)} && IsLive(s, c)
    ensures var s' := Next(s, step); c in s'.commands && s'.commands[c] == Ending(s.live[c], Live(s, c).tabs, step == BeginStart(c))
  {
  }

  lemma EndIsOver(s: State, c: ClientId)
    requires Enabled(s, EndResumed(c))
    ensures Over(Next(s, EndResumed(c)), c, s.commands[c].ids)
  {
  }

  /** However the end of a session is interleaved with other steps: when its stretch after the await has run, the client has
      no session, and the tabs listed when it began are nobody's. */
  lemma EndedTabsAreReleased(states: seq<State>, steps: seq<Step>, m: nat, n: nat, c: ClientId)
    requires IsRun(states, steps) && m < n < |steps| && steps[m] in {BeginEnd(c), BeginStart(c)} && IsLive(states[m], c)
    requires steps[n] == EndResumed(c) && Rests(steps, m + 1, n, c)
    ensures Over(states[n + 1], c, Live(states[m], c).tabs)
  {
    hide IsRun, Next, Enabled, Inv, Rests, Over, IsLive;
    RunLength(states, steps);
    RunStep(states, steps, m);
    RunStep(states, steps, n);
    EndBegins(states[m], steps[m], c);
    CommandStays(states, steps, m + 1, n, c);
    EndIsOver(states[n], c);
  }

  // ---- the popup's end ----

  /** The step is the end the popup had begun as `p`. */
  predicate Serves(s: State, step: Step, p: PopupEnd) {
    step.PopupResumed? && step.popup < |s.popups| && s.popups[step.popup] == p
  }

  lemma ServedIsOver(s: State, step: Step, p: PopupEnd)
    requires Enabled(s, step) && Serves(s, step, p)
    ensures Over(Next(s, step), p.client, p.ids)
  {
  }

  lemma PopupWaits(s: State, step: Step, p: PopupEnd)
    requires Enabled(s, step) && p in s.popups && !Serves(s, step, p)
    ensures p in Next(s, step).popups
  {
    hide Add, Without, Current, Released;
    var k :| 0 <= k < |s.popups| && s.popups[k] == p;
    if step.PopupResumed? {
      var popups := s.popups[..step.popup] + s.popups[step.popup + 1..];
      assert popups[if k < step.popup then k else k - 1] == p;
    }
  }

  ghost predicate ServedBetween(states: seq<State>, steps: seq<Step>, m: nat, n: nat, p: PopupEnd)
    requires n <= |steps| && n < |states|
  {
    exists k: nat :: m <= k < n && Serves(states[k], steps[k], p) && Over(states[k + 1], p.client, p.ids)
  }

  lemma {:induction false} PopupWaitsOn(states: seq<State>, steps: seq<Step>, m: nat, n: nat, p: PopupEnd)
    requires IsRun(states, steps) && m <= n <= |steps| && n < |states| && p in states[m].popups
    ensures p in states[n].popups || ServedBetween(states, steps, m, n, p)
    decreases n - m
  {
    hide IsRun, Next, Enabled, Inv, Serves, Over;
    if m < n {
      PopupWaitsOn(states, steps, m, n - 1, p);
      RunStep(states, steps, n - 1);
      if p in states[n - 1].popups {
        if Serves(states[n - 1], steps[n - 1], p) {
          ServedIsOver(states[n - 1], steps[n - 1], p);
        } else {
          PopupWaits(states[n - 1], steps[n - 1], p);
        }
      }
    }
  }

  lemma PopupBegins(s: State, c: ClientId)
    requires IsLive(s, c)
    ensures PopupEnd(c, Live(s, c).tabs) in Next(s, PopupBegan(c)).popups
  {
  }

  lemma WaitingPopupCanGo(s: State, p: PopupEnd)
    requires p in s.popups
    ensures exists i: nat :: Enabled(s, PopupResumed(i)) && Serves(s, PopupResumed(i), p)
  {
    var i: nat :| i < |s.popups| && s.popups[i] == p;
    assert Enabled(s, PopupResumed(i)) && Serves(s, PopupResumed(i), p);
  }

  /** A session that the popup ends: whatever else happens, its end can go on until it has, and when it has the client has no
      session, and the tabs listed when it began are nobody's. */
  lemma PopupEndsTheSession(states: seq<State>, steps: seq<Step>, m: nat, n: nat, c: ClientId)
    requires IsRun(states, steps) && m < n <= |steps| && steps[m] == PopupBegan(c) && IsLive(states[m], c)
    ensures |states| == |steps| + 1
    ensures var p := PopupEnd(c, Live(states[m], c).tabs);
      || (exists i: nat :: Enabled(states[n], PopupResumed(i)) && Serves(states[n], PopupResumed(i), p))
      || ServedBetween(states, steps, m + 1, n, p)
  {
    hide IsRun, Next, Enabled, Inv, Serves, Over, IsLive, ServedBetween;
    RunLength(states, steps);
    RunStep(states, steps, m);
    PopupBegins(states[m], c);
    var p := PopupEnd(c, Live(states[m], c).tabs);
    PopupWaitsOn(states, steps, m + 1, n, p);
    if p in states[n].popups { WaitingPopupCanGo(states[n], p); }
  }

  // ---- before a new session ----

  /** Since step `m` an adoption has given `t` to `c`. */
  ghost predicate AdoptedSince(states: seq<State>, steps: seq<Step>, m: nat, n: nat, c: ClientId, t: TabId)
    requires n <= |steps| && n < |states|
  {
    exists k: nat :: m <= k < n && steps[k] == Adopted(t) && Gainer(states[k], steps[k], t) == Some(c)
  }

  /** What `c` still has is left to be cleaned up, or was adopted since. */
  ghost predicate CleansUp(states: seq<State>, steps: seq<Step>, m: nat, n: nat, c: ClientId)
    requires n <= |steps| && n < |states|
  {
    && c in states[n].commands && (states[n].commands[c].Cleaning? || states[n].commands[c].CreatingWindow?)
    && forall t :: Owns(states[n], c, t) ==>
                     (states[n].commands[c].Cleaning? && t in states[n].commands[c].left) || AdoptedSince(states, steps, m, n, c, t)
  }

  /** Between the two points of the run the client's command goes through its list. */
  ghost predicate OnlyCleans(steps: seq<Step>, m: nat, n: nat, c: ClientId)
    requires n <= |steps|
  {
    forall k :: m <= k < n && OwnStep(steps[k], c) ==> steps[k] == CleanResumed(c)
  }

  lemma OneCleaned(s: State, c: ClientId)
    requires Enabled(s, CleanResumed(c))
    ensures var s', left := Next(s, CleanResumed(c)), s.commands[c].left;
      && c in s'.commands && s'.commands[c] == (if left == [] then CreatingWindow else Cleaning(left[1..]))
      && forall t :: Owns(s', c, t) ==> Owns(s, c, t) && (left == [] || t != left[0])
  {
  }

  lemma CleansOn(states: seq<State>, steps: seq<Step>, m: nat, n: nat, c: ClientId)
    requires IsRun(states, steps) && m <= n < |steps| && n + 1 < |states| && CleansUp(states, steps, m, n, c)
    requires OwnStep(steps[n], c) ==> steps[n] == CleanResumed(c)
    ensures CleansUp(states, steps, m, n + 1, c)
  {
    hide IsRun, Next, Enabled, Inv, OwnStep, Gainer, Frees;
    RunStep(states, steps, n);
    var s, s' := states[n], states[n + 1];
    if steps[n] == CleanResumed(c) {
      OneCleaned(s, c);
    } else {
      OthersLeaveTheCommand(s, steps[n], c);
    }
    forall t | Owns(s', c, t)
      ensures (s'.commands[c].Cleaning? && t in s'.commands[c].left) || AdoptedSince(states, steps, m, n + 1, c, t)
    {
      OwnersAreGainedAndFreed(s, steps[n], t, c);
      if Owns(s, c, t) {
        if AdoptedSince(states, steps, m, n, c, t) {
          var k: nat :| m <= k < n && steps[k] == Adopted(t) && Gainer(states[k], steps[k], t) == Some(c);
          assert m <= k < n + 1;
        }
      } else {
        GainedByAdoption(s, steps[n], c, t);
      }
    }
  }

  lemma GainedByAdoption(s: State, step: Step, c: ClientId, t: TabId)
    requires Gainer(s, step, t) == Some(c) && c in s.commands && (s.commands[c].Cleaning? || s.commands[c].CreatingWindow?)
    ensures step == Adopted(t)
  {
  }

  lemma {:induction false} CleanedUpTo(states: seq<State>, steps: seq<Step>, m: nat, n: nat, c: ClientId)
    requires IsRun(states, steps) && m <= n <= |steps| && n < |states| && m < |states|
    requires CleansUp(states, steps, m, m, c) && OnlyCleans(steps, m, n, c)
    ensures CleansUp(states, steps, m, n, c)
    decreases n - m
  {
    hide IsRun, CleansUp, OwnStep;
    if m < n {
      CleanedUpTo(states, steps, m, n - 1, c);
      CleansOn(states, steps, m, n - 1, c);
    }
  }

  lemma ListedIsLeft(states: seq<State>, steps: seq<Step>, m: nat, c: ClientId)
    requires IsRun(states, steps) && m < |steps| && m + 1 < |states| && steps[m].OwnersListed? && steps[m].client == c
    ensures CleansUp(states, steps, m + 1, m + 1, c)
  {
    RunStep(states, steps, m);
    hide Inv;
  }

  /** Before a client's new session begins, what it had is cleared away, whatever was left behind: when its window is about to
      be created, the client has no tab but those adopted since its tabs were listed. */
  lemma NewSessionsStartClean(states: seq<State>, steps: seq<Step>, m: nat, n: nat, c: ClientId, t: TabId)
    requires IsRun(states, steps) && m < n <= |steps| && n < |states| && steps[m].OwnersListed? && steps[m].client == c
    requires OnlyCleans(steps, m + 1, n, c) && c in states[n].commands && states[n].commands[c] == CreatingWindow
    requires Owns(states[n], c, t)
    ensures AdoptedSince(states, steps, m + 1, n, c, t)
  {
    ListedIsLeft(states, steps, m, c);
    CleanedUpTo(states, steps, m + 1, n, c);
    hide IsRun, OnlyCleans, AdoptedSince;
  }
}
