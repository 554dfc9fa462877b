/** The template builder page (app/builder/page.tsx): the current template, the undo history
    of earlier templates and the change log, and the three handlers that update them. The
    template type and the change-log entry type are defined outside this model, so they are
    type parameters. */
module BuilderSession {
  import opened Wrappers

  datatype SessionState<T, E> = SessionState(currentTemplate: Option<T>, history: seq<T>, changeLog: seq<E>)

  /** The state the page starts in: nothing selected, no history, an empty change log. */
  function InitialSession<T, E>(): (r: SessionState<T, E>)
    ensures r.currentTemplate.None? && r.history == [] && r.changeLog == []
  {
    SessionState(None, [], [])
  }

  /** What every reachable session satisfies: history is only ever filled from a current
      template, and a current template is never cleared, so history implies a current one. */
  predicate Consistent<T, E>(s: SessionState<T, E>) {
    s.history != [] ==> s.currentTemplate.Some?
  }

  /** The updater passed to `setSession` by `handleSelectTemplate`. */
  function SelectTemplate<T, E>(prev: SessionState<T, E>, tpl: T): (r: SessionState<T, E>)
    ensures r.currentTemplate == Some(tpl)
    ensures r.history == prev.history && r.changeLog == prev.changeLog
    ensures Consistent(r)
  {
    prev.(currentTemplate := Some(tpl), history := prev.history)
  }

  /** The updater passed to `setSession` by `handleSiteConfigChange`: the template being
      replaced, if any, becomes the newest undo point. */
  function ApplyChange<T, E>(prev: SessionState<T, E>, next: T): (r: SessionState<T, E>)
    ensures r.currentTemplate == Some(next)
    ensures prev.currentTemplate.Some? ==>
      r.history == prev.history + [prev.currentTemplate.value] && |r.history| == |prev.history| + 1
    ensures prev.currentTemplate.None? ==> r.history == prev.history
    ensures r.changeLog == prev.changeLog
    ensures Consistent(r)
  {
    prev.(
      history := if prev.currentTemplate.Some? then prev.history + [prev.currentTemplate.value] else prev.history,
      currentTemplate := Some(next))
  }

  /** The updater passed to `setSession` by `handleUndo`: the newest undo point becomes
      current again; with no history or no current template the session is returned as is. */
  function Undo<T, E>(prev: SessionState<T, E>): (r: SessionState<T, E>)
    ensures prev.history == [] || prev.currentTemplate.None? ==> r == prev
    ensures prev.history != [] && prev.currentTemplate.Some? ==>
      r.currentTemplate == Some(prev.history[|prev.history| - 1])
      && r.history == prev.history[..|prev.history| - 1]
      && prev.history == r.history + [r.currentTemplate.value]
    ensures r.changeLog == prev.changeLog
    ensures Consistent(prev) ==> Consistent(r)
  {
    if |prev.history| == 0 || prev.currentTemplate.None? then prev
    else
      var history := prev.history[..|prev.history| - 1];
      var last := prev.history[|prev.history| - 1];
      prev.(currentTemplate := Some(last), history := history)
  }

  /** A change followed by an undo gives back the session exactly as it was. */
  lemma ChangeThenUndo<T, E>(s: SessionState<T, E>, next: T)
    requires s.currentTemplate.Some?
    ensures Undo(ApplyChange(s, next)) == s
  {
  }

  /** In a reachable session the undo handler does something exactly when the history is
      non-empty, which is when the page enables its "Undo last change" button. */
  lemma UndoEnabledExactlyWithHistory<T, E>(s: SessionState<T, E>)
    requires Consistent(s)
    ensures Undo(s) != s <==> s.history != []
  {
  }

  /** Selecting a template creates no undo point: an undo right after a selection goes back
      to the same template an undo would have restored before it. This is a fact about the
      select updater on its own: the page shows its template buttons only while no template
      is current, so on the page itself a selection never follows a change. */
  lemma SelectCreatesNoUndoPoint<T, E>(s: SessionState<T, E>, tpl: T)
    requires s.currentTemplate.Some? && s.history != []
    ensures Undo(SelectTemplate(s, tpl)) == Undo(s)
  {
  }

  /** The session after a series of changes, applied oldest first. */
  function ApplyChanges<T, E>(s: SessionState<T, E>, changes: seq<T>): SessionState<T, E>
    decreases |changes|
  {
    if changes == [] then s
    else ApplyChange(ApplyChanges(s, changes[..|changes| - 1]), changes[|changes| - 1])
  }

  /** The session after pressing undo `n` times. */
  function UndoTimes<T, E>(s: SessionState<T, E>, n: nat): SessionState<T, E>
    decreases n
  {
    if n == 0 then s else UndoTimes(Undo(s), n - 1)
  }

  /** Once a template is current, every change adds exactly one undo point on top of the
      earlier ones, which stay untouched below it. */
  lemma {:induction false} ChangesStackUp<T, E>(s: SessionState<T, E>, changes: seq<T>)
    requires s.currentTemplate.Some?
    ensures ApplyChanges(s, changes).currentTemplate.Some?
    ensures |ApplyChanges(s, changes).history| == |s.history| + |changes|
    ensures ApplyChanges(s, changes).history[..|s.history|] == s.history
    ensures ApplyChanges(s, changes).changeLog == s.changeLog
    decreases |changes|
  {
    if changes != [] {
      var before := ApplyChanges(s, changes[..|changes| - 1]);
      ChangesStackUp(s, changes[..|changes| - 1]);
      var after := ApplyChange(before, changes[|changes| - 1]);
      assert after.history == before.history + [before.currentTemplate.value];
      assert after.history[..|s.history|] == before.history[..|s.history|];
    }
  }

  /** The history is a stack: undoing as many times as there were changes gives back the
      session from before the first change. */
  lemma {:induction false} UndoReversesChanges<T, E>(s: SessionState<T, E>, changes: seq<T>)
    requires s.currentTemplate.Some?
    ensures UndoTimes(ApplyChanges(s, changes), |changes|) == s
    decreases |changes|
  {
    if changes != [] {
      var earlier := changes[..|changes| - 1];
      var before := ApplyChanges(s, earlier);
      ChangesStackUp(s, earlier);
      ChangeThenUndo(before, changes[|changes| - 1]);
      assert Undo(ApplyChanges(s, changes)) == before;
      UndoReversesChanges(s, earlier);
    }
  }

  /** One press of a handler on the builder page. */
  datatype Action<T> = Select(selected: T) | Change(changed: T) | UndoPress

  /** The updater a handler passes to `setSession`. */
  function Step<T, E>(s: SessionState<T, E>, a: Action<T>): SessionState<T, E> {
    match a
    case Select(tpl) => SelectTemplate(s, tpl)
    case Change(next) => ApplyChange(s, next)
    case UndoPress => Undo(s)
  }

  /** The session after a series of handler presses, applied in order. */
  function Replay<T, E>(s: SessionState<T, E>, actions: seq<Action<T>>): SessionState<T, E>
    decreases |actions|
  {
    if actions == [] then s else Replay(Step(s, actions[0]), actions[1..])
  }

  /** Every session any series of select, change and undo presses reaches from the initial
      one keeps "non-empty history implies a current template", and leaves the change log
      empty. */
  lemma {:induction false} ReachableSessionsAreConsistent<T, E>(actions: seq<Action<T>>)
    ensures Consistent(Replay(InitialSession<T, E>(), actions))
    ensures Replay(InitialSession<T, E>(), actions).changeLog == []
  {
    ReplayKeepsConsistent(InitialSession<T, E>(), actions);
  }

  /** A consistent session stays consistent, with the same change log, under any series of
      presses. */
  lemma {:induction false} ReplayKeepsConsistent<T, E>(s: SessionState<T, E>, actions: seq<Action<T>>)
    requires Consistent(s)
    ensures Consistent(Replay(s, actions))
    ensures Replay(s, actions).changeLog == s.changeLog
    decreases |actions|
  {
    if actions != [] {
      ReplayKeepsConsistent(Step(s, actions[0]), actions[1..]);
    }
  }

  /** The page's session, held in React state and replaced by each handler. */
  class BuilderPage<T, E> {
    var currentTemplate: Option<T>
    var history: seq<T>
    var changeLog: seq<E>

    function Session(): SessionState<T, E>
      reads this
    {
      SessionState(currentTemplate, history, changeLog)
    }

    ghost predicate Valid()
      reads this
    {
      Consistent(Session())
    }

    constructor ()
      ensures Valid()
      ensures Session() == InitialSession()
    {
      currentTemplate := None;
      history := [];
      changeLog := [];
    }

    method HandleSelectTemplate(tpl: T)
      requires Valid()
      modifies this
      ensures Valid()
      ensures Session() == SelectTemplate(old(Session()), tpl)
      ensures currentTemplate == Some(tpl)
      ensures history == old(history) && changeLog == old(changeLog)
    {
      currentTemplate := Some(tpl);
    }

    method HandleSiteConfigChange(next: T)
      requires Valid()
      modifies this
      ensures Valid()
      ensures Session() == ApplyChange(old(Session()), next)
      ensures old(currentTemplate).Some? ==> history == old(history) + [old(currentTemplate).value]
      ensures old(currentTemplate).None? ==> history == old(history)
      ensures currentTemplate == Some(next) && changeLog == old(changeLog)
    {
      if currentTemplate.Some? {
        history := history + [currentTemplate.value];
      }
      currentTemplate := Some(next);
    }

    method HandleUndo()
      requires Valid()
      modifies this
      ensures Valid()
      ensures Session() == Undo(old(Session()))
      ensures old(history) == [] ==> Session() == old(Session())
      ensures old(history) != [] ==>
        old(history) == history + [currentTemplate.value] && changeLog == old(changeLog)
    {
      if |history| == 0 || currentTemplate.None? {
        return;
      }
      var copy := history;
      var last := copy[|copy| - 1];
      copy := copy[..|copy| - 1];
      currentTemplate := Some(last);
      history := copy;
    }
  }
}
