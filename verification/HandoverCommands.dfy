/** The operator's commands around a handover: the web's pause, resume and cancel are answered from
    the moment a job starts, before there is a streamer to take them. */
module HandoverCommands {
  import opened Handover
  import ProxyRuns
  import opened StreamerModel

  /** What the proxy's state says of the job; NoJob stands for every state without one. */
  datatype Shown = NoJob | Executing | Paused

  /** A command answered "ok", and whether the streamer was there to be told. */
  datatype Answered = Answered(op: Operator, there: bool)

  /** `paused` and `cancelled` are the streamer's; `answered` holds the commands of this job. */
  datatype Scene = Scene(
    tasks: Tasks,
    shown: Shown,
    userCancelled: bool,
    paused: bool,
    cancelled: bool,
    answered: seq<Answered>)

  datatype SceneEvent = OfTask(e: TaskEvent) | ByOperator(op: Operator)

  const QUIET_SCENE := Scene(QUIET, NoJob, false, false, false, [])

  predicate Accepts(w: Scene, op: Operator) {
    match op
    case Pause => w.shown == Executing
    case Resume => w.shown == Paused
    case Cancel => w.shown != NoJob
  }

  /** ProxyControl.pause(), resume() and cancel(). */
  function OnCommand(w: Scene, op: Operator): Scene {
    if !Accepts(w, op) then w else
    var there := Streams(w.tasks);
    var w1 := w.(answered := w.answered + [Answered(op, there)]);
    match op
    case Pause => w1.(shown := Paused, paused := there)
    case Resume => w1.(shown := Executing, paused := false)
    case Cancel => w1.(userCancelled := true, cancelled := w.cancelled || there, paused := w.paused && !there)
  }

  /** The tasks' own steps: a job's start, _start_streamer and _on_streamer_done write the same fields. */
  function OnTask(w: Scene, e: TaskEvent): Scene {
    var w1 := w.(tasks := TaskStep(w.tasks, e));
    if e.JobStarts? && w.tasks.readable then w1.(shown := Executing, answered := [])
    else if e.FinalizerRuns? && w.tasks.finalizer == AwaitIdle(true) then
      if e.serialKnown then w1.(userCancelled := false, paused := false, cancelled := false)
      else w1.(userCancelled := false, shown := NoJob)
    else if e.StreamerEnds? && w.tasks.streamer.BetweenReads? then
      w1.(userCancelled := false, shown := NoJob, paused := false, cancelled := false)
    else w1
  }

  function SceneStep(w: Scene, e: SceneEvent): Scene {
    match e
    case OfTask(te) => OnTask(w, te)
    case ByOperator(op) => OnCommand(w, op)
  }

  function SceneRun(w: Scene, es: seq<SceneEvent>): Scene
    decreases |es|
  {
    if es == [] then w else SceneRun(SceneStep(w, es[0]), es[1..])
  }

  function Ops(answered: seq<Answered>): seq<Operator> {
    seq(|answered|, i requires 0 <= i < |answered| => answered[i].op)
  }

  /** Of the job's pauses and resumes the newest is a pause, and came before the streamer. */
  predicate PausedTooEarly(answered: seq<Answered>) {
    answered != [] &&
    var (rest, last) := (answered[..|answered| - 1], answered[|answered| - 1]);
    match last.op
    case Pause => !last.there
    case Resume => false
    case Cancel => PausedTooEarly(rest)
  }

  /** The proxy's view and the streamer's, as the answered commands have them. */
  ghost predicate InStep(w: Scene) {
    && Orderly(w.tasks)
    && (w.shown == NoJob <==> w.tasks.readable)
    && (w.shown != NoJob ==> (w.shown == Paused <==> ProxyRuns.AskedToPause(Ops(w.answered))))
    && (w.shown != NoJob && !Streams(w.tasks) ==> forall a :: a in w.answered ==> !a.there)
    && (forall i, j :: 0 <= i < j < |w.answered| && w.answered[i].there ==> w.answered[j].there)
    && (Streams(w.tasks) ==>
          && (w.cancelled <==> Answered(Cancel, true) in w.answered)
          && (w.userCancelled <==> w.cancelled)
          && (w.paused <==> w.answered != [] && w.answered[|w.answered| - 1] == Answered(Operator.Pause, true)))
  }

  lemma OpsAppend(answered: seq<Answered>, a: Answered)
    ensures Ops(answered + [a]) == Ops(answered) + [a.op]
  {
  }

  lemma CommandKeepsStep(w: Scene, op: Operator)
    requires InStep(w)
    ensures InStep(OnCommand(w, op))
  {
    hide Orderly, ProxyRuns.AskedToPause;
    var a := Answered(op, Streams(w.tasks));
    OpsAppend(w.answered, a);
    ProxyRuns.ToldPauses(Ops(w.answered), op);
  }

  /** Who holds the port, and whether the streamer is there, change in three steps only. */
  lemma OwnerChanges(t: Tasks, e: TaskEvent)
    requires Orderly(t)
    ensures var t' := TaskStep(t, e);
            var starts := e.FinalizerRuns? && t.finalizer == AwaitIdle(true);
            && (Streams(t') <==> || (starts && e.serialKnown)
                                 || (Streams(t) && !(e.StreamerEnds? && t.streamer.BetweenReads?)))
            && (t'.readable <==> || (starts && !e.serialKnown)
                                 || (e.StreamerEnds? && t.streamer.BetweenReads?)
                                 || (t.readable && !e.JobStarts?))
  {
    hide RunRelay, TakeLock, EndRead;
    if e.RelayRuns? && Runnable(t) { RelayOwnsNothing(t, e.linkLost); }
    LockOwnsNothing(t, e);
  }

  lemma RelayOwnsNothing(t: Tasks, linkLost: bool)
    requires Runnable(t)
    ensures var t' := RunRelay(t, linkLost); t'.streamer == t.streamer && t'.readable == t.readable
  {
  }

  lemma LockOwnsNothing(t: Tasks, e: TaskEvent)
    ensures e.LockTaken? || e.ReadEnds? ==>
              var t' := TaskStep(t, e); (Streams(t') <==> Streams(t)) && t'.readable == t.readable
  {
  }

  lemma TaskKeepsStep(w: Scene, e: TaskEvent)
    requires InStep(w)
    ensures InStep(OnTask(w, e))
  {
    hide TaskStep, ProxyRuns.AskedToPause;
    StepKeepsOrderly(w.tasks, e);
    OwnerChanges(w.tasks, e);
    NothingAsked();
  }

  lemma NothingAsked()
    ensures !ProxyRuns.AskedToPause(Ops([]))
  {
  }

  lemma {:induction false} SceneRunKeepsStep(w: Scene, es: seq<SceneEvent>)
    requires InStep(w)
    ensures InStep(SceneRun(w, es))
    decreases |es|
  {
    hide InStep, OnTask, OnCommand;
    if es == [] {
    } else {
      match es[0] {
        case OfTask(e) => TaskKeepsStep(w, e);
        case ByOperator(op) => CommandKeepsStep(w, op);
      }
      SceneRunKeepsStep(SceneStep(w, es[0]), es[1..]);
    }
  }

  lemma QuietInStep()
    ensures InStep(QUIET_SCENE)
  {
    NothingAsked();
  }

  lemma {:induction false} EarlyPause(answered: seq<Answered>)
    requires forall i, j :: 0 <= i < j < |answered| && answered[i].there ==> answered[j].there
    requires Answered(Cancel, true) !in answered
    ensures PausedTooEarly(answered) <==>
              && ProxyRuns.AskedToPause(Ops(answered))
              && answered[|answered| - 1] != Answered(Operator.Pause, true)
  {
    if answered == [] {
    } else {
      var rest, last := answered[..|answered| - 1], answered[|answered| - 1];
      assert answered == rest + [last];
      OpsAppend(rest, last);
      ProxyRuns.ToldPauses(Ops(rest), last.op);
      EarlyPause(rest);
    }
  }

  /** In every interleaving, while the streamer runs: a cancel that was answered is forgotten, by the
      streamer and by the proxy, exactly when every cancel of this job came before the streamer was
      there; and the proxy shows PAUSED beside a streamer that is neither paused nor cancelled exactly
      when the newest pause came before the streamer and no cancel after. */
  lemma CommandsAreLostExactly(es: seq<SceneEvent>)
    requires Streams(SceneRun(QUIET_SCENE, es).tasks)
    ensures var w := SceneRun(QUIET_SCENE, es);
            && (!w.cancelled && !w.userCancelled <==> Answered(Cancel, true) !in w.answered)
            && (w.shown == Paused && !w.paused && !w.cancelled
                <==> PausedTooEarly(w.answered) && Answered(Cancel, true) !in w.answered)
  {
    hide SceneRun;
    QuietInStep();
    SceneRunKeepsStep(QUIET_SCENE, es);
    var w := SceneRun(QUIET_SCENE, es);
    if Answered(Cancel, true) !in w.answered { EarlyPause(w.answered); }
  }

  /** A job whose port is stranded shows as a job for good: commands are answered, and nothing ends it. */
  lemma StrandedJobShows(es: seq<SceneEvent>, more: seq<SceneEvent>)
    requires Stranded(SceneRun(QUIET_SCENE, es).tasks)
    ensures SceneRun(SceneRun(QUIET_SCENE, es), more).shown != NoJob
  {
    hide SceneRun;
    QuietInStep();
    SceneRunKeepsStep(QUIET_SCENE, es);
    var w := SceneRun(QUIET_SCENE, es);
    SceneRunKeepsStep(w, more);
    SceneStaysStranded(w, more);
  }

  lemma {:induction false} SceneStaysStranded(w: Scene, es: seq<SceneEvent>)
    requires Stranded(w.tasks)
    ensures Stranded(SceneRun(w, es).tasks)
    decreases |es|
  {
    hide TaskStep;
    if es == [] {
    } else {
      if es[0].OfTask? { StrandedStep(w.tasks, es[0].e); }
      SceneStaysStranded(SceneStep(w, es[0]), es[1..]);
    }
  }

  /** It takes one command: a job starts, the operator cancels or pauses, the streamer starts. */
  lemma LosingACommand()
    ensures var w := SceneRun(QUIET_SCENE, [OfTask(JobStarts), ByOperator(Cancel), OfTask(FinalizerRuns(true))]);
            Streams(w.tasks) && w.answered == [Answered(Cancel, false)] && !w.cancelled && !w.userCancelled
    ensures var w := SceneRun(QUIET_SCENE,
                              [OfTask(JobStarts), ByOperator(Operator.Pause), OfTask(FinalizerRuns(true))]);
            Streams(w.tasks) && w.shown == Paused && !w.paused && !w.cancelled
  {
    ThreeSteps(OfTask(JobStarts), ByOperator(Cancel), OfTask(FinalizerRuns(true)));
    ThreeSteps(OfTask(JobStarts), ByOperator(Operator.Pause), OfTask(FinalizerRuns(true)));
  }

  lemma ThreeSteps(a: SceneEvent, b: SceneEvent, d: SceneEvent)
    ensures SceneRun(QUIET_SCENE, [a, b, d]) == SceneStep(SceneStep(SceneStep(QUIET_SCENE, a), b), d)
  {
    hide SceneStep;
    assert [a, b, d][1..] == [b, d] && [b, d][1..] == [d] && [d][1..] == [];
    var w2 := SceneStep(SceneStep(QUIET_SCENE, a), b);
    assert SceneRun(w2, [d]) == SceneStep(w2, d);
  }
}
