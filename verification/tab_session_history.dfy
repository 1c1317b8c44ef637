/**
 What a live session shows, read off the steps taken: its tabs in the order in which they came, and as its primary tab
 the one last named, or the first left when that one is gone.
 */
module TabSessionHistory {
  import opened Options
  import opened TabSessions
  import opened TabSessionRuns

  predicate IsLive(s: State, c: ClientId) {
    c in s.live && s.live[c] in s.objs
  }

  /** The session object of a client that has one. */
  function Live(s: State, c: ClientId): Session
    requires IsLive(s, c)
  {
    s.objs[s.live[c]]
  }

  // ---- one step ----

  /** `tabs` without `t`, the others in their order; added at the end unless it is there. */
  ghost predicate IsWithout(tabs: seq<TabId>, t: TabId, tabs': seq<TabId>) {
    && (t !in tabs ==> tabs' == tabs) && (forall u :: u in tabs' <==> u in tabs && u != t)
    && forall i :: 0 <= i < |tabs| && tabs[i] == t && t !in tabs[..i] && t !in tabs[i + 1..] ==> tabs' == tabs[..i] + tabs[i + 1..]
  }

  ghost predicate IsWith(tabs: seq<TabId>, t: TabId, tabs': seq<TabId>) {
    tabs' == if t in tabs then tabs else tabs + [t]
  }

  /** The step adds a tab to the live session of `c`: one opened for it, or one adopted into it. */
  predicate Adds(s: State, step: Step, c: ClientId, t: TabId)
    requires c in s.live
  {
    match step
    case OpenCommitted(d) => d == c && d in s.commands && s.commands[d].OpenGrouping? && s.commands[d].tab == t
    case Adopted(u) => u == t && t in s.adopting && s.adopting[t] == s.live[c]
    case _ => false
  }

  predicate MakesPrimary(s: State, step: Step) {
    step.OpenCommitted? && step.client in s.commands && s.commands[step.client].OpenGrouping? && s.commands[step.client].makePrimary
  }

  predicate Owns(s: State, c: ClientId, t: TabId) {
    t in s.owner && s.owner[t] == c
  }

  /** The step takes a tab away from the live session of `c`, one it closes, or one of the client's tabs that is removed in
      the browser or found in another group. */
  predicate Takes(s: State, step: Step, c: ClientId, t: TabId)
    requires IsLive(s, c)
  {
    match step
    case CloseCommitted(d) => d == c && d in s.commands && s.commands[d].Closing? && s.commands[d].tab == t
    case Removed(u) => u == t && Owns(s, c, t)
    case Regrouped(u, group) => u == t && Owns(s, c, t) && group != Live(s, c).group
    case _ => false
  }

  /** The step ends the session of `c`. */
  predicate EndsSession(s: State, step: Step, c: ClientId)
    requires IsLive(s, c)
  {
    match step
    case EndResumed(d) => d == c
    case PopupResumed(i) => i < |s.popups| && s.popups[i].client == c
    case GroupRemoved(d) => d == c
    case Removed(t) => Owns(s, c, t) && forall u :: u in Live(s, c).tabs ==> u == t
    case _ => false
  }

  lemma {:induction false} WithoutIs(tabs: seq<TabId>, t: TabId)
    ensures IsWithout(tabs, t, Without(tabs, t))
  {
    WithoutMembers(tabs, t);
    if t !in tabs {
      NothingTaken(tabs, t);
    } else {
      forall i | 0 <= i < |tabs| && tabs[i] == t && t !in tabs[..i] && t !in tabs[i + 1..]
        ensures Without(tabs, t) == tabs[..i] + tabs[i + 1..]
      {
        OneTaken(tabs, t, i);
      }
    }
  }

  lemma {:induction false} NothingTaken(tabs: seq<TabId>, t: TabId)
    requires t !in tabs
    ensures Without(tabs, t) == tabs
  {
    if tabs != [] { NothingTaken(tabs[1..], t); }
  }

  lemma {:induction false} OneTaken(tabs: seq<TabId>, t: TabId, i: nat)
    requires i < |tabs| && tabs[i] == t && t !in tabs[..i] && t !in tabs[i + 1..]
    ensures Without(tabs, t) == tabs[..i] + tabs[i + 1..]
  {
    if i == 0 {
      NothingTaken(tabs[1..], t);
    } else {
      assert tabs[1..][..i - 1] == tabs[..i][1..] && tabs[1..][i..] == tabs[i + 1..];
      assert tabs[..i] == [tabs[0]] + tabs[..i][1..];
      OneTaken(tabs[1..], t, i - 1);
    }
  }

  /** What the step leaves of the live session `o` of `c`. */
  ghost predicate BecomesOf(s: State, step: Step, c: ClientId, o: Session, o': Session)
    requires IsLive(s, c)
  {
    && o'.client == o.client && o'.group == o.group
    && (forall t: TabId :: Adds(s, step, c, t) ==>
          IsWith(o.tabs, t, o'.tabs) && o'.primary == if MakesPrimary(s, step) then Some(t) else o.primary)
    && (forall t: TabId :: Takes(s, step, c, t) ==>
          && IsWithout(o.tabs, t, o'.tabs)
          && o'.primary == if o.primary != Some(t) || step.CloseCommitted? then o.primary
                           else if o'.tabs == [] then None else Some(o'.tabs[0]))
    && ((forall t: TabId :: !Adds(s, step, c, t) && !Takes(s, step, c, t)) ==> o' == o)
  }

  lemma AddingStep(s: State, step: Step, c: ClientId)
    requires Inv(s) && IsLive(s, c) && Enabled(s, step) && (step.OpenCommitted? || step.Adopted?)
    ensures IsLive(Next(s, step), c) && Next(s, step).live[c] == s.live[c] && BecomesOf(s, step, c, Live(s, c), Live(Next(s, step), c))
  {
    assert LiveSound(s);
    if step.OpenCommitted? {
      assert CommandSound(s, step.client, s.commands[step.client]);
      var ref, t := s.commands[step.client].ref, s.commands[step.client].tab;
      assert step.client != c ==> ref != s.live[c];
      assert Adds(s, step, c, t) <==> step.client == c;
    } else {
      assert Adds(s, step, c, step.tab) <==> s.adopting[step.tab] == s.live[c];
    }
  }

  ghost predicate TakesOnly(s: State, step: Step, c: ClientId, t: TabId)
    requires IsLive(s, c)
  {
    forall u: TabId :: !Adds(s, step, c, u) && (Takes(s, step, c, u) <==> u == t)
  }

  ghost predicate MovesNothing(s: State, step: Step, c: ClientId)
    requires IsLive(s, c)
  {
    forall u: TabId :: !Adds(s, step, c, u) && !Takes(s, step, c, u)
  }

  lemma TakenBecomes(s: State, step: Step, c: ClientId, t: TabId, o: Session, o': Session)
    requires IsLive(s, c) && TakesOnly(s, step, c, t) && o'.client == o.client && o'.group == o.group && IsWithout(o.tabs, t, o'.tabs)
    requires o'.primary == if o.primary != Some(t) || step.CloseCommitted? then o.primary
                           else if o'.tabs == [] then None else Some(o'.tabs[0])
    ensures BecomesOf(s, step, c, o, o')
  {
    hide Adds, Takes, IsWithout, IsWith, MakesPrimary;
    assert Takes(s, step, c, t);
  }

  lemma SameBecomes(s: State, step: Step, c: ClientId, o: Session)
    requires IsLive(s, c) && MovesNothing(s, step, c)
    ensures BecomesOf(s, step, c, o, o)
  {
    hide Adds, Takes, IsWithout, IsWith, MakesPrimary;
  }

  lemma CloseShape(s: State, step: Step, c: ClientId)
    requires Inv(s) && IsLive(s, c) && Enabled(s, step) && step.CloseCommitted?
    ensures IsLive(Next(s, step), c) && Next(s, step).live[c] == s.live[c]
    ensures var t, o' := s.commands[step.client].tab, Live(Next(s, step), c);
      if step.client == c then TakesOnly(s, step, c, t) && o' == Live(s, c).(tabs := Without(Live(s, c).tabs, t))
      else MovesNothing(s, step, c) && o' == Live(s, c)
  {
    assert LiveSound(s) && CommandSound(s, step.client, s.commands[step.client]);
    var ref := s.commands[step.client].ref;
    assert if step.client == c then ref == s.live[c] else ref != s.live[c];
    hide Inv, LiveSound, CommandSound, Without;
  }

  lemma CloseStep(s: State, step: Step, c: ClientId)
    requires Inv(s) && IsLive(s, c) && Enabled(s, step) && step.CloseCommitted?
    ensures IsLive(Next(s, step), c) && Next(s, step).live[c] == s.live[c] && BecomesOf(s, step, c, Live(s, c), Live(Next(s, step), c))
  {
    CloseShape(s, step, c);
    hide Inv, Next, TakesOnly, MovesNothing, Without, IsWithout, BecomesOf;
    var o := Live(s, c);
    if step.client == c {
      WithoutIs(o.tabs, s.commands[c].tab);
      TakenBecomes(s, step, c, s.commands[c].tab, o, Live(Next(s, step), c));
    } else {
      SameBecomes(s, step, c, o);
    }
  }

  lemma BrowserShape(s: State, step: Step, c: ClientId)
    requires Inv(s) && IsLive(s, c) && Enabled(s, step) && (step.Removed? || step.Regrouped?) && !EndsSession(s, step, c)
    ensures IsLive(Next(s, step), c) && Next(s, step).live[c] == s.live[c]
    ensures if Takes(s, step, c, step.tab) then TakesOnly(s, step, c, step.tab) && Live(Next(s, step), c) == Released(Live(s, c), step.tab)
            else MovesNothing(s, step, c) && Live(Next(s, step), c) == Live(s, c)
  {
    assert LiveSound(s);
    var o, t := Live(s, c), step.tab;
    WithoutMembers(o.tabs, t);
    if step.Removed? && Owns(s, c, t) { assert exists u :: u in o.tabs && u != t && u in Without(o.tabs, t); }
    hide Inv, Without;
  }

  lemma BrowserStep(s: State, step: Step, c: ClientId)
    requires Inv(s) && IsLive(s, c) && Enabled(s, step) && (step.Removed? || step.Regrouped?) && !EndsSession(s, step, c)
    ensures IsLive(Next(s, step), c) && Next(s, step).live[c] == s.live[c] && BecomesOf(s, step, c, Live(s, c), Live(Next(s, step), c))
  {
    BrowserShape(s, step, c);
    hide Inv, Next, TakesOnly, MovesNothing, Released, IsWithout, BecomesOf, EndsSession;
    if Takes(s, step, c, step.tab) {
      ReleasedIs(Live(s, c), step.tab);
      TakenBecomes(s, step, c, step.tab, Live(s, c), Live(Next(s, step), c));
    } else {
      SameBecomes(s, step, c, Live(s, c));
    }
  }

  lemma ReleasedIs(o: Session, t: TabId)
    ensures var o' := Released(o, t);
      && o'.client == o.client && o'.group == o.group && IsWithout(o.tabs, t, o'.tabs)
      && o'.primary == if o.primary != Some(t) then o.primary else if o'.tabs == [] then None else Some(o'.tabs[0])
  {
    WithoutIs(o.tabs, t);
    hide Without, IsWithout;
  }

  lemma OtherStep(s: State, step: Step, c: ClientId)
    requires Inv(s) && IsLive(s, c) && Enabled(s, step) && !EndsSession(s, step, c) && (step.StartCommitted? ==> step.client != c)
    requires !step.OpenCommitted? && !step.Adopted? && !step.CloseCommitted? && !step.Removed? && !step.Regrouped?
    ensures IsLive(Next(s, step), c) && Next(s, step).live[c] == s.live[c] && BecomesOf(s, step, c, Live(s, c), Live(Next(s, step), c))
  {
    OtherShape(s, step, c);
    hide Inv, Next, Enabled, MovesNothing, BecomesOf, EndsSession;
    SameBecomes(s, step, c, Live(s, c));
  }

  lemma OtherShape(s: State, step: Step, c: ClientId)
    requires IsLive(s, c) && Enabled(s, step) && !EndsSession(s, step, c) && (step.StartCommitted? ==> step.client != c)
    requires !step.OpenCommitted? && !step.Adopted? && !step.CloseCommitted? && !step.Removed? && !step.Regrouped?
    ensures IsLive(Next(s, step), c) && Next(s, step).live[c] == s.live[c] && Live(Next(s, step), c) == Live(s, c) && MovesNothing(s, step, c)
  {
    hide OnRemoved, OnRegrouped, OpenDone, CloseDone;
  }

  /** A client never starts a session while it has one. */
  lemma NoStartWhileLive(s: State, step: Step, c: ClientId)
    requires Inv(s) && IsLive(s, c) && Enabled(s, step) && step.StartCommitted?
    ensures step.client != c
  {
    assert CommandSound(s, step.client, s.commands[step.client]);
  }

  /** What a step does to a live session: tabs are added at its end, taken out of its order, or stay; the primary tab is the
      one opened as such, passes on to the first tab left when it is taken by the browser, or stays. */
  lemma SessionStep(s: State, step: Step, c: ClientId)
    requires Inv(s) && IsLive(s, c) && Enabled(s, step)
    ensures var s' := Next(s, step);
      && (IsLive(s', c) <==> !EndsSession(s, step, c))
      && (IsLive(s', c) ==> s'.live[c] == s.live[c] && BecomesOf(s, step, c, Live(s, c), Live(s', c)))
  {
    hide Inv, BecomesOf;
    if EndsSession(s, step, c) {
      EndedStep(s, step, c);
    } else {
      match step
      case OpenCommitted(_) => AddingStep(s, step, c);
      case Adopted(_) => AddingStep(s, step, c);
      case CloseCommitted(_) => CloseStep(s, step, c);
      case Removed(_) => BrowserStep(s, step, c);
      case Regrouped(_, _) => BrowserStep(s, step, c);
      case StartCommitted(_, _, _) =>
        NoStartWhileLive(s, step, c);
        OtherStep(s, step, c);
      case _ => OtherStep(s, step, c);
    }
  }

  lemma {:induction false} AllTaken(tabs: seq<TabId>, t: TabId)
    requires forall u :: u in tabs ==> u == t
    ensures Without(tabs, t) == []
  {
    if tabs != [] {
      assert tabs[0] in tabs && forall u :: u in tabs[1..] ==> u in tabs;
      AllTaken(tabs[1..], t);
    }
  }

  lemma EndedStep(s: State, step: Step, c: ClientId)
    requires IsLive(s, c) && Enabled(s, step) && EndsSession(s, step, c)
    ensures c !in Next(s, step).live
  {
    if step.Removed? { AllTaken(Live(s, c).tabs, step.tab); }
  }

  // ---- what the steps say of a client's command ----

  /** The tab that the client's last command is about: the one created for it, or to be closed. */
  function Subject(steps: seq<Step>, c: ClientId): TabId {
    if steps == [] then 0
    else
      var before := steps[..|steps| - 1];
      match steps[|steps| - 1]
      case WindowCreated(d, t) => if d == c then t else Subject(before, c)
      case OpenCreated(d, t) => if d == c then t else Subject(before, c)
      case BeginClose(d, t) => if d == c then t else Subject(before, c)
      case _ => Subject(before, c)
  }

  /** Whether the client last asked for a tab that is to be the primary one. */
  function AsPrimary(steps: seq<Step>, c: ClientId): bool {
    if steps == [] then false
    else
      match steps[|steps| - 1]
      case BeginOpen(d, makePrimary) => if d == c then makePrimary else AsPrimary(steps[..|steps| - 1], c)
      case _ => AsPrimary(steps[..|steps| - 1], c)
  }

  ghost predicate Remembers(command: Command, steps: seq<Step>, c: ClientId) {
    match command
    case Grouping(t) => t == Subject(steps, c)
    case Opening(_, makePrimary) => makePrimary == AsPrimary(steps, c)
    case OpenGrouping(_, t, makePrimary) => t == Subject(steps, c) && makePrimary == AsPrimary(steps, c)
    case Closing(_, t) => t == Subject(steps, c)
    case _ => true
  }

  predicate OwnStep(step: Step, c: ClientId) {
    match step
    case BeginStart(d) => d == c
    case BeginEnd(d) => d == c
    case BeginOpen(d, _) => d == c
    case BeginClose(d, _) => d == c
    case EndResumed(d) => d == c
    case OwnersListed(d, _) => d == c
    case CleanResumed(d) => d == c
    case WindowCreated(d, _) => d == c
    case StartCommitted(d, _, _) => d == c
    case OpenCreated(d, _) => d == c
    case OpenCommitted(d) => d == c
    case CloseCommitted(d) => d == c
    case CommandFailed(d) => d == c
    case _ => false
  }

  lemma ListenersKeepCommands(s: State, step: Step)
    requires Enabled(s, step) && (step.Removed? || step.Regrouped? || step.GroupRemoved?)
    ensures Next(s, step).commands == s.commands
  {
    hide Released;
  }

  /** Whatever else happens, a client's command waits where it is until its own next stretch. */
  lemma OthersLeaveTheCommand(s: State, step: Step, c: ClientId)
    requires Enabled(s, step) && !OwnStep(step, c)
    ensures c in Next(s, step).commands <==> c in s.commands
    ensures c in s.commands ==> Next(s, step).commands[c] == s.commands[c]
  {
    if step.Removed? || step.Regrouped? || step.GroupRemoved? {
      ListenersKeepCommands(s, step);
    } else {
      hide OnRemoved, OnRegrouped, DropSession, Add, Without;
    }
  }

  lemma OwnStepRemembers(s: State, steps: seq<Step>, step: Step, c: ClientId)
    requires Enabled(s, step) && OwnStep(step, c) && (c in s.commands ==> Remembers(s.commands[c], steps, c))
    ensures c in Next(s, step).commands ==> Remembers(Next(s, step).commands[c], steps + [step], c)
  {
    var later := steps + [step];
    assert later[..|later| - 1] == steps;
  }

  lemma OtherStepRemembers(steps: seq<Step>, step: Step, c: ClientId)
    requires !OwnStep(step, c)
    ensures Subject(steps + [step], c) == Subject(steps, c) && AsPrimary(steps + [step], c) == AsPrimary(steps, c)
  {
    var later := steps + [step];
    assert later[..|later| - 1] == steps;
  }

  lemma {:induction false} CommandsRemember(states: seq<State>, steps: seq<Step>, n: nat, c: ClientId)
    requires IsRun(states, steps) && n < |states| && c in states[n].commands
    ensures Remembers(states[n].commands[c], steps[..n], c)
  {
    if n > 0 {
      var s, step := states[n - 1], steps[n - 1];
      assert steps[..n] == steps[..n - 1] + [step] && Enabled(s, step) && states[n] == Next(s, step);
      hide IsRun, Next, Enabled, Remembers, Subject, AsPrimary;
      if c in s.commands { CommandsRemember(states, steps, n - 1, c); }
      if OwnStep(step, c) {
        OwnStepRemembers(s, steps[..n - 1], step, c);
      } else {
        OthersLeaveTheCommand(s, step, c);
        OtherStepRemembers(steps[..n - 1], step, c);
        SameMemory(s.commands[c], steps[..n - 1], steps[..n], c);
      }
    }
  }

  lemma SameMemory(command: Command, steps: seq<Step>, steps': seq<Step>, c: ClientId)
    requires Remembers(command, steps, c) && Subject(steps', c) == Subject(steps, c) && AsPrimary(steps', c) == AsPrimary(steps, c)
    ensures Remembers(command, steps', c)
  {
  }

  /** A command that is begun with a session goes on to its end: the tab asked for can be created, and then committed; a
      listed tab other than the primary one can be closed, the primary one cannot; a session can be ended; one restarted
      is ended first. Nothing is begun without a session but a new one. */
  lemma CommandsGoOn(s: State, step: Step, c: ClientId)
    requires Inv(s) && Enabled(s, step) && OwnStep(step, c)
    ensures var s' := Next(s, step);
      match step
      case BeginOpen(_, _) => if IsLive(s, c) then forall t :: t !in s'.home ==> Enabled(s', OpenCreated(c, t)) else !Waits(s', c)
      case OpenCreated(_, _) => Enabled(s', OpenCommitted(c))
      case BeginClose(_, t) =>
        if IsLive(s, c) && t in Live(s, c).tabs && Live(s, c).primary != Some(t) then Enabled(s', CloseCommitted(c)) else !Waits(s', c)
      case BeginEnd(_) => if IsLive(s, c) then Enabled(s', EndResumed(c)) else !Waits(s', c)
      case BeginStart(_) => if IsLive(s, c) then Enabled(s', EndResumed(c)) else Waits(s', c) && s'.commands[c] == Cleaning([])
      case EndResumed(_) => Waits(s', c) <==> s.commands[c].restart
      case OwnersListed(_, _) => Enabled(s', CleanResumed(c))
      case CleanResumed(_) => if s.commands[c].left == [] then forall t :: t !in s'.home ==> Enabled(s', WindowCreated(c, t)) else Enabled(s', CleanResumed(c))
      case WindowCreated(_, _) => forall ref, group :: ref !in s'.objs ==> Enabled(s', StartCommitted(c, ref, group))
      case _ => !Waits(s', c)
  {
    assert c in s.commands ==> CommandSound(s, c, s.commands[c]);
  }

  /** A tab that one of a live session's tabs opens can be adopted, into that session. */
  lemma OpenedTabsAreAdopted(s: State, c: ClientId, opener: TabId, t: TabId)
    requires Inv(s) && IsLive(s, c) && opener in Live(s, c).tabs && t !in s.home
    ensures var s' := Next(s, TabCreated(t, opener));
      Enabled(s', Adopted(t)) && IsLive(s', c) && Adds(s', Adopted(t), c, t)
  {
    assert Owned(s) && LiveSound(s);
  }

  // ---- runs ----

  /** The step names the primary tab of the session of `c`: that of a new session, or one opened as such. */
  predicate Names(steps: seq<Step>, k: nat, c: ClientId)
    requires k < |steps|
  {
    match steps[k]
    case StartCommitted(d, _, _) => d == c
    case OpenCommitted(d) => d == c && AsPrimary(steps[..k], c)
    case _ => false
  }

  /** The step takes `t` from the live session of `c` if it is listed there. */
  predicate TakesAway(s: State, steps: seq<Step>, k: nat, c: ClientId, t: TabId)
    requires k < |steps| && IsLive(s, c)
  {
    match steps[k]
    case CloseCommitted(d) => d == c && Subject(steps[..k], c) == t
    case Removed(u) => u == t
    case Regrouped(u, group) => u == t && group != Live(s, c).group
    case _ => false
  }

  lemma RunStep(states: seq<State>, steps: seq<Step>, n: nat)
    requires IsRun(states, steps) && n < |steps|
    ensures Inv(states[n]) && Enabled(states[n], steps[n]) && states[n + 1] == Next(states[n], steps[n])
  {
    RunKeepsInv(states, steps, n);
  }

  /** A session begins with the tab created for it, in the group it was given. */
  lemma SessionsBegin(states: seq<State>, steps: seq<Step>, n: nat, c: ClientId)
    requires IsRun(states, steps) && n < |steps| && steps[n].StartCommitted? && steps[n].client == c
    ensures IsLive(states[n + 1], c)
    ensures var t := Subject(steps[..n], c); Live(states[n + 1], c) == Session(c, steps[n].group, [t], Some(t))
  {
    RunStep(states, steps, n);
    CommandsRemember(states, steps, n, c);
  }

  /** No other step gives a client a session. */
  lemma OnlyStartsBegin(s: State, step: Step, c: ClientId)
    requires Inv(s) && Enabled(s, step) && !IsLive(s, c) && !(step.StartCommitted? && step.client == c)
    ensures !IsLive(Next(s, step), c)
  {
    assert LiveSound(s) && c !in s.live;
  }

  /** Before and after any step of a run: the tab opened or adopted is listed last, a tab taken away is not listed, the
      others keep their order; and the primary tab is the one the step names, the first one left when it was taken away in
      the browser, or the one it was. */
  lemma SessionIsItsHistory(states: seq<State>, steps: seq<Step>, n: nat, c: ClientId)
    requires IsRun(states, steps) && n < |steps| && IsLive(states[n], c) && IsLive(states[n + 1], c)
    ensures var s, step, o, o' := states[n], steps[n], Live(states[n], c), Live(states[n + 1], c);
      && o'.group == o.group
      && (step == OpenCommitted(c) ==> IsWith(o.tabs, Subject(steps[..n], c), o'.tabs))
      && (step.Adopted? && step.tab in s.adopting && s.adopting[step.tab] == s.live[c] ==> IsWith(o.tabs, step.tab, o'.tabs))
      && (forall t: TabId :: t in o.tabs && TakesAway(s, steps, n, c, t) ==> IsWithout(o.tabs, t, o'.tabs))
      && (forall t: TabId :: t in o.tabs && t !in o'.tabs ==> TakesAway(s, steps, n, c, t))
      && (Names(steps, n, c) ==> o'.primary == Some(Subject(steps[..n], c)))
      && (!Names(steps, n, c) && o.primary.Some? && o.primary.value in o.tabs ==>
            o'.primary == if TakesAway(s, steps, n, c, o.primary.value) && !step.CloseCommitted?
                          then if o'.tabs == [] then None else Some(o'.tabs[0])
                          else o.primary)
  {
    RunStep(states, steps, n);
    if c in states[n].commands { CommandsRemember(states, steps, n, c); }
    var s, step := states[n], steps[n];
    SessionStep(s, step, c);
    if step.StartCommitted? { NoStartWhileLive(s, step, c); }
    ListedIsOwned(s, c);
    hide IsRun, Inv, Next, Subject, AsPrimary, EndsSession;
    Readings(s, step, steps, n, c);
    hide Enabled;
    TabsRead(s, step, steps, n, c, Live(s, c), Live(states[n + 1], c));
    PrimaryReads(s, step, steps, n, c, Live(s, c), Live(states[n + 1], c));
  }

  /** The step ends the adoption of `t`, one way or the other. */
  predicate EndsAdoption(step: Step, t: TabId) {
    step == Adopted(t) || step == AdoptionFailed(t)
  }

  /** `t` was opened at step `k`, and its adoption has not ended by step `n`. */
  ghost predicate OpenedAt(steps: seq<Step>, k: nat, n: nat, t: TabId)
    requires n <= |steps|
  {
    k < n && steps[k].TabCreated? && steps[k].tab == t && forall j :: k < j < n ==> !EndsAdoption(steps[j], t)
  }

  lemma CommandsAdoptNothing(s: State, step: Step, c: ClientId)
    requires Enabled(s, step) && OwnStep(step, c)
    ensures Next(s, step).adopting == s.adopting
  {
    hide Without, Add, Current;
  }

  lemma ListenersAdoptNothing(s: State, step: Step)
    requires Enabled(s, step) && (step.PopupBegan? || step.PopupResumed? || step.Regrouped? || step.Removed? || step.GroupRemoved?)
    ensures Next(s, step).adopting == s.adopting
  {
    hide Released, Current, OwningSession;
  }

  lemma HomesStay(s: State, step: Step)
    requires Enabled(s, step)
    ensures s.home.Keys <= Next(s, step).home.Keys
  {
    hide Without, Add, Released, Current;
  }

  lemma AdoptingMoves(s: State, step: Step, t: TabId)
    requires Enabled(s, step) && (step.TabCreated? || step.Adopted? || step.AdoptionFailed?) && t in Next(s, step).adopting
    ensures (t in s.adopting && !EndsAdoption(step, t)) || (step.TabCreated? && step.tab == t)
  {
    hide Without, Add, Released, Current;
  }

  lemma AdoptionStep(s: State, step: Step, t: TabId)
    requires Enabled(s, step) && t in Next(s, step).adopting
    ensures (t in s.adopting && !EndsAdoption(step, t)) || (step.TabCreated? && step.tab == t)
  {
    hide Enabled, Next;
    if step.TabCreated? || step.Adopted? || step.AdoptionFailed? {
      AdoptingMoves(s, step, t);
    } else if step.PopupBegan? || step.PopupResumed? || step.Regrouped? || step.Removed? || step.GroupRemoved? {
      ListenersAdoptNothing(s, step);
    } else {
      CommandsAdoptNothing(s, step, step.client);
    }
  }

  lemma {:induction false} AdoptionsAreOfOpenedTabs(states: seq<State>, steps: seq<Step>, n: nat, t: TabId)
    requires IsRun(states, steps) && n < |states| && t in states[n].adopting
    ensures exists k: nat :: OpenedAt(steps, k, n, t)
  {
    hide Next, Enabled, Inv;
    if n > 0 {
      RunStep(states, steps, n - 1);
      AdoptionStep(states[n - 1], steps[n - 1], t);
      if t in states[n - 1].adopting && !EndsAdoption(steps[n - 1], t) {
        AdoptionsAreOfOpenedTabs(states, steps, n - 1, t);
        var k: nat :| OpenedAt(steps, k, n - 1, t);
        assert OpenedAt(steps, k, n, t);
      } else {
        assert OpenedAt(steps, n - 1, n, t);
      }
    }
  }

  lemma {:induction false} KnownFrom(states: seq<State>, steps: seq<Step>, m: nat, n: nat, t: TabId)
    requires IsRun(states, steps) && m <= n < |states| && t in states[m].home
    ensures t in states[n].home
    decreases n - m
  {
    hide Next, Enabled;
    if m < n {
      KnownFrom(states, steps, m, n - 1, t);
      HomesStay(states[n - 1], steps[n - 1]);
    }
  }

  /** A tab is adopted only after a tab opened it, and once: nothing adopts it again, wherever it has gone since. */
  lemma TabsAreAdoptedOnce(states: seq<State>, steps: seq<Step>, i: nat, j: nat, t: TabId)
    requires IsRun(states, steps) && i < j < |steps| && steps[j] == Adopted(t)
    ensures !EndsAdoption(steps[i], t)
    ensures exists k :: 0 <= k < j && steps[k].TabCreated? && steps[k].tab == t
  {
    RunStep(states, steps, j);
    AdoptionsAreOfOpenedTabs(states, steps, j, t);
    var k: nat :| OpenedAt(steps, k, j, t);
    RunStep(states, steps, k);
    if EndsAdoption(steps[i], t) {
      RunStep(states, steps, i);
      assert AdoptingSound(states[i]) && t in states[i].home;
      KnownFrom(states, steps, i, k, t);
    }
  }

  lemma ListedIsOwned(s: State, c: ClientId)
    requires Inv(s) && IsLive(s, c)
    ensures forall t :: t in Live(s, c).tabs ==> Owns(s, c, t)
  {
    assert Owned(s);
  }

  ghost predicate Read(s: State, step: Step, steps: seq<Step>, n: nat, c: ClientId)
    requires n < |steps| && IsLive(s, c)
  {
    && (forall t: TabId :: t in Live(s, c).tabs ==> (TakesAway(s, steps, n, c, t) <==> Takes(s, step, c, t)))
    && (step == OpenCommitted(c) ==> Adds(s, step, c, Subject(steps[..n], c)) && (MakesPrimary(s, step) <==> Names(steps, n, c)))
    && (forall t: TabId :: Adds(s, step, c, t) ==> step == OpenCommitted(c) || (step == Adopted(t) && t in s.adopting && s.adopting[t] == s.live[c]))
    && (forall t: TabId :: step == Adopted(t) && t in s.adopting && s.adopting[t] == s.live[c] ==> Adds(s, step, c, t))
    && (step.Adopted? ==> !MakesPrimary(s, step))
  }

  lemma TabsRead(s: State, step: Step, steps: seq<Step>, n: nat, c: ClientId, o: Session, o': Session)
    requires n < |steps| && steps[n] == step && IsLive(s, c) && o == Live(s, c) && Read(s, step, steps, n, c) && BecomesOf(s, step, c, o, o')
    ensures step == OpenCommitted(c) ==> IsWith(o.tabs, Subject(steps[..n], c), o'.tabs)
    ensures step.Adopted? && step.tab in s.adopting && s.adopting[step.tab] == s.live[c] ==> IsWith(o.tabs, step.tab, o'.tabs)
    ensures forall t: TabId :: t in o.tabs && TakesAway(s, steps, n, c, t) ==> IsWithout(o.tabs, t, o'.tabs)
    ensures forall t: TabId :: t in o.tabs && t !in o'.tabs ==> TakesAway(s, steps, n, c, t)
  {
    hide TakesAway, Adds, MakesPrimary, Names, Subject;
    forall t: TabId | t in o.tabs && t !in o'.tabs ensures TakesAway(s, steps, n, c, t) {
      if u: TabId :| Takes(s, step, c, u) {
        assert IsWithout(o.tabs, u, o'.tabs) && t == u;
      }
    }
  }

  lemma PrimaryReads(s: State, step: Step, steps: seq<Step>, n: nat, c: ClientId, o: Session, o': Session)
    requires n < |steps| && steps[n] == step && IsLive(s, c) && o == Live(s, c) && Read(s, step, steps, n, c) && BecomesOf(s, step, c, o, o')
    requires step.StartCommitted? ==> step.client != c
    ensures Names(steps, n, c) ==> o'.primary == Some(Subject(steps[..n], c))
    ensures !Names(steps, n, c) && o.primary.Some? && o.primary.value in o.tabs ==>
            o'.primary == if TakesAway(s, steps, n, c, o.primary.value) && !step.CloseCommitted?
                          then if o'.tabs == [] then None else Some(o'.tabs[0])
                          else o.primary
  {
    hide Adds, MakesPrimary, Subject, IsWith, IsWithout, AsPrimary;
    if u: TabId :| Adds(s, step, c, u) {
      assert step == OpenCommitted(c) || step == Adopted(u);
    } else {
      if u: TabId :| Takes(s, step, c, u) {
        assert step.CloseCommitted? || step.Removed? || step.Regrouped?;
      }
    }
  }

  /** The step as the state has it and as the steps tell it are the same. */
  lemma Readings(s: State, step: Step, steps: seq<Step>, n: nat, c: ClientId)
    requires n < |steps| && steps[n] == step && Enabled(s, step) && IsLive(s, c)
    requires c in s.commands ==> Remembers(s.commands[c], steps[..n], c)
    requires forall t :: t in Live(s, c).tabs ==> Owns(s, c, t)
    ensures Read(s, step, steps, n, c)
  {
    hide Subject, AsPrimary;
  }

  ghost predicate LiveFrom(states: seq<State>, m: nat, n: nat, c: ClientId)
    requires n < |states|
  {
    forall k :: m <= k <= n ==> IsLive(states[k], c)
  }

  /** From step `m` up to step `n` no other primary tab is named, and `t` is not taken away. */
  ghost predicate KeepsPrimary(states: seq<State>, steps: seq<Step>, m: nat, n: nat, c: ClientId, t: TabId)
    requires n <= |steps| && n < |states| && LiveFrom(states, m, n, c)
  {
    forall k :: m <= k < n ==> !Names(steps, k, c) && !TakesAway(states[k], steps, k, c, t)
  }

  /** Over every interleaving: the tab a session was started with, or the last one opened to be its primary tab, is its
      primary tab for as long as it is listed; and it is listed until it is closed, removed, or found in another group. */
  lemma {:induction false} PrimaryIsTheLastNamed(states: seq<State>, steps: seq<Step>, m: nat, n: nat, c: ClientId)
    requires IsRun(states, steps) && m < n < |states| && Names(steps, m, c) && LiveFrom(states, m + 1, n, c)
    requires KeepsPrimary(states, steps, m + 1, n, c, Subject(steps[..m], c))
    ensures IsLive(states[n], c)
    ensures var t, o := Subject(steps[..m], c), Live(states[n], c); t in o.tabs && o.primary == Some(t)
    decreases n - m
  {
    hide Loaded, Next, Enabled, TakesAway, Subject, AsPrimary, IsLive, Names;
    var t := Subject(steps[..m], c);
    assert |states| == |steps| + 1 && IsLive(states[n], c);
    assert n > m + 1 ==> IsLive(states[n - 1], c) && !Names(steps, n - 1, c) && !TakesAway(states[n - 1], steps, n - 1, c, t);
    hide IsRun;
    if n == m + 1 {
      NamedIsPrimary(states, steps, m, c);
    } else {
      PrimaryIsTheLastNamed(states, steps, m, n - 1, c);
      hide LiveFrom, KeepsPrimary;
      PrimaryStays(states, steps, n - 1, c, t);
    }
  }

  lemma NamedIsPrimary(states: seq<State>, steps: seq<Step>, m: nat, c: ClientId)
    requires IsRun(states, steps) && m < |steps| && Names(steps, m, c) && IsLive(states[m + 1], c)
    ensures var t, o := Subject(steps[..m], c), Live(states[m + 1], c); t in o.tabs && o.primary == Some(t)
  {
    hide IsRun, TakesAway, Subject, AsPrimary, IsLive;
    if steps[m].StartCommitted? {
      SessionsBegin(states, steps, m, c);
    } else {
      OpensWhileLive(states, steps, m, c);
      SessionIsItsHistory(states, steps, m, c);
    }
  }

  lemma PrimaryStays(states: seq<State>, steps: seq<Step>, n: nat, c: ClientId, t: TabId)
    requires IsRun(states, steps) && n < |steps| && IsLive(states[n], c) && IsLive(states[n + 1], c)
    requires t in Live(states[n], c).tabs && Live(states[n], c).primary == Some(t)
    requires !Names(steps, n, c) && !TakesAway(states[n], steps, n, c, t)
    ensures t in Live(states[n + 1], c).tabs && Live(states[n + 1], c).primary == Some(t)
  {
    hide IsRun, TakesAway, Subject, IsLive, Names, IsWithout, IsWith;
    SessionIsItsHistory(states, steps, n, c);
  }

  lemma OpensWhileLive(states: seq<State>, steps: seq<Step>, n: nat, c: ClientId)
    requires IsRun(states, steps) && n < |steps| && steps[n] == OpenCommitted(c) && IsLive(states[n + 1], c)
    ensures IsLive(states[n], c)
  {
    RunStep(states, steps, n);
    assert LiveSound(states[n]);
  }
}
