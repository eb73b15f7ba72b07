/** A session as it is driven: the actor, its mailboxes, and the branches of its loop. Every step is
    proved to be the system step of the same name, so a driven session reaches exactly the states
    the session's promises are about. */
module SessionRun {
  import opened Common
  import opened ClientView
  import opened SessionModel
  import opened SessionActor
  import opened SystemSafety
  import opened SessionTheorems
  import EventSpool
  import P = ResponsePipeline
  import T = Transcription

  class Driven {
    const actor: Actor
    var fault: Option<Fault>       // the error the actor's loop returned

    ghost predicate Valid()
      reads this, actor, actor.history, actor.recentMessages
    {
      actor.Valid()
    }

    ghost function State(): Session
      reads this, actor, actor.history, actor.recentMessages, actor.mailboxes
    {
      actor.Abs(fault)
    }

    constructor (config: Config)
      ensures Valid() && State() == Begin(config)
      ensures fresh(actor) && fresh(actor.history) && fresh(actor.recentMessages) && fresh(actor.mailboxes)
    {
      actor := new Actor(config);
      fault := None;
    }

    /** The loop goes round again. */
    predicate Looping()
      reads this, actor, actor.mailboxes
    {
      actor.mailboxes.lanes.life.Live? && fault.None? && (actor.phase.Ready? || actor.phase.Active?)
    }

    /** A branch was chosen: what the environment does during it, and what was taken off a lane. */
    method Choose(script: seq<Choice>, lanes: Lanes)
      requires Valid()
      modifies actor`environment, actor.mailboxes
      ensures Valid() && State() == InLanes(WithScript(old(State()), script), lanes)
    {
      actor.environment := script;
      actor.mailboxes.lanes := lanes;
    }

    // ---------- branches of the loop ----------

    method BootUp(script: seq<Choice>)
      requires Valid()
      modifies this, actor, actor.mailboxes
      ensures Valid() && State() == Next(old(State()), Boot(script))
    {
      hide EmitEvent, EmitOutput, Next;
      ghost var s := State();
      BootIs(s, script);
      if !actor.mailboxes.lanes.life.Booting? {
        return;
      }
      Choose(script, actor.mailboxes.lanes.(life := Live));
      if fault.None? {
        fault := actor.EmitEvent(EventSpool.SessionReady, 0);
      } else {
        StillFaulted(State());
      }
      if fault.None? {
        fault := actor.EmitOutput(ClientView.SessionReady);
      } else {
        StillFaulted(State());
      }
    }

    method TakeFromControl(script: seq<Choice>)
      requires Valid()
      modifies this, actor, actor.history, actor.recentMessages, actor.mailboxes
      ensures Valid() && State() == Next(old(State()), TakeControl(script))
    {
      hide HandleControl, Next;
      ghost var s := State();
      TakeControlIs(s, script);
      var lanes := actor.mailboxes.lanes;
      if !Looping() || lanes.control == [] {
        return;
      }
      Choose(script, lanes.(control := lanes.control[1..]));
      fault := actor.HandleControl(lanes.control[0]);
    }

    method TakeFromMedia(script: seq<Choice>)
      requires Valid()
      modifies this, actor, actor.history, actor.recentMessages, actor.mailboxes
      ensures Valid() && State() == Next(old(State()), TakeMedia(script))
    {
      hide HandleMedia, Next;
      ghost var s := State();
      TakeMediaIs(s, script);
      var lanes := actor.mailboxes.lanes;
      if !Looping() || lanes.media == [] {
        return;
      }
      Choose(script, lanes.(media := lanes.media[1..]));
      fault := actor.HandleMedia(lanes.media[0]);
    }

    /** The start or session deadline, a forced cancel, or an overfull media lane. */
    method Stop(step: Step, script: seq<Choice>)
      requires Valid() && (step == Deadline(script) || step == ForceCancel(script) || step == MediaOverrun(script))
      modifies this, actor, actor.mailboxes
      ensures Valid() && State() == Next(old(State()), step)
    {
      hide FailSession, EndSession, EmitEvent, Next;
      ghost var s := State();
      StopIs(s, step, script);
      var lanes := actor.mailboxes.lanes;
      if !Looping() || (step.MediaOverrun? && !lanes.overrun) {
        return;
      }
      Choose(script, lanes);
      if step.MediaOverrun? {
        fault := actor.Overrun();
      } else if step.ForceCancel? || actor.phase.Ready? {
        fault := actor.FailSession();
      } else {
        fault := actor.EndSession(Phase.Completed, EventSpool.SessionCompleted);
      }
    }

    method LeaveLoop(script: seq<Choice>)
      requires Valid()
      modifies this, actor, actor.mailboxes
      ensures Valid() && State() == Next(old(State()), Teardown(script))
    {
      hide Next, TeardownSession;
      ghost var s := State();
      TeardownIs(s, script);
      var lanes := actor.mailboxes.lanes;
      if !lanes.life.Live? || Looping() {
        return;
      }
      var life := Flushing(fault.Some? || actor.terminalError);
      Choose(script, lanes);
      actor.CloseDown(fault);
      actor.mailboxes.lanes := lanes.(life := life);
    }

    // ---------- around the actor ----------

    method QueueMedia(m: Media)
      requires Valid()
      modifies actor.mailboxes
      ensures Valid() && State() == EnqueueMedia(old(State()), m)
    {
      var lanes := actor.mailboxes.lanes;
      actor.mailboxes.lanes :=
        if |lanes.media| < actor.config.mediaCapacity then lanes.(media := lanes.media + [m]) else lanes.(overrun := true);
    }

    method QueueControl(c: Command)
      requires Valid()
      modifies actor.mailboxes
      ensures Valid() && State() == EnqueueControl(old(State()), c)
    {
      var lanes := actor.mailboxes.lanes;
      if |lanes.control| < actor.config.controlCapacity {
        actor.mailboxes.lanes := lanes.(control := lanes.control + [c]);
      }
    }

    /** A task's send, which waited until the lane had room. */
    method Send(sent: seq<Command>)
      requires Valid()
      modifies actor.mailboxes
      ensures Valid() && State() == old(State()).(control := old(State()).control + sent)
    {
      actor.mailboxes.lanes := actor.mailboxes.lanes.(control := actor.mailboxes.lanes.control + sent);
    }

    /** A response task goes on by one step, sending at most one event. */
    method RunResponseTask(epoch: nat, answer: P.Input)
      requires Valid()
      modifies actor`tasks, actor.mailboxes
      ensures Valid() && State() == StepResponseTask(old(State()), epoch, answer)
    {
      hide P.Step;
      var tasks, lanes := actor.tasks.responses, actor.mailboxes.lanes;
      if epoch !in tasks || |lanes.control| >= actor.config.controlCapacity {
        return;
      }
      var before, after := tasks[epoch], P.Step(tasks[epoch], actor.config.pipeline, answer);
      var sent := if |after.emitted| > |before.emitted| then [Pipeline(epoch, after.emitted[|before.emitted|])] else [];
      actor.tasks := actor.tasks.(responses := tasks[epoch := after]);
      Send(sent);
    }

    method RunInputTask(epoch: nat, hears: T.Input)
      requires Valid()
      modifies actor`tasks, actor.mailboxes
      ensures Valid() && State() == StepListenTask(old(State()), epoch, hears)
    {
      hide T.Step;
      var tasks, lanes := actor.tasks.inputs, actor.mailboxes.lanes;
      if epoch !in tasks || |lanes.control| >= actor.config.controlCapacity {
        return;
      }
      var before, after := tasks[epoch], T.Step(tasks[epoch], hears);
      var sent := if |after.emitted| > |before.emitted| then [Stt(epoch, after.emitted[|before.emitted|])] else [];
      actor.tasks := actor.tasks.(inputs := tasks[epoch := after]);
      Send(sent);
    }

    method DeliverOne(action: EventSpool.Action)
      requires Valid()
      modifies actor`events
      ensures Valid() && State() == Next(old(State()), Deliver(action))
    {
      hide EventSpool.WorkerStep;
      actor.events := EventSpool.WorkerStep(actor.events, action);
    }

    /** Report the outcome once the worker has stopped, or because the run was cut off. */
    method EndRun(cutOff: bool)
      requires Valid()
      modifies actor.mailboxes
      ensures Valid() && State() == Next(old(State()), if cutOff then Abort else Join)
    {
      var lanes := actor.mailboxes.lanes;
      if cutOff {
        if !lanes.life.Over? {
          actor.mailboxes.lanes := lanes.(life := Over, outcome := Outcome.Broken);
        }
      } else if lanes.life.Flushing? && actor.events.worker.Stopped? {
        var flushed := !lanes.life.err && actor.events.worker.delivered;
        actor.mailboxes.lanes := lanes.(life := Over, outcome := if flushed then Flushed else Outcome.Broken);
      }
    }

    /** Any step of the system. */
    method Perform(step: Step)
      requires Valid()
      modifies this, actor, actor.history, actor.recentMessages, actor.mailboxes
      ensures Valid() && State() == Next(old(State()), step)
    {
      hide HandleControl, HandleMedia, FailSession, EndSession, StepResponseTask, StepListenTask, EmitEvent, EmitOutput, TeardownSession;
      match step
      case Boot(script) => BootUp(script);
      case Arrive(m) =>
        if ValidBody(m.body) {
          if NeedsOrder(m.body) {
            QueueMedia(Ordered(m));
          } else {
            QueueControl(Client(m));
          }
        }
      case ArriveFrame(frame) =>
        if 0 < |frame| <= actor.config.maxFrame && |frame| % 2 == 0 {
          QueueMedia(Frame(frame));
        }
      case Operate(cancel) => QueueControl(if cancel then CancelSession else CompleteSession);
      case TakeControl(script) => TakeFromControl(script);
      case TakeMedia(script) => TakeFromMedia(script);
      case Deadline(script) => Stop(step, script);
      case ForceCancel(script) => Stop(step, script);
      case MediaOverrun(script) => Stop(step, script);
      case RespondTask(epoch, answer) => RunResponseTask(epoch, answer);
      case ListenTask(epoch, hears) => RunInputTask(epoch, hears);
      case Deliver(action) => DeliverOne(action);
      case Teardown(script) => LeaveLoop(script);
      case Join => EndRun(false);
      case Abort => EndRun(true);
    }
  }

  // ---------- the steps, spelled out ----------

  function InLanes(s: Session, lanes: Lanes): Session {
    s.(control := lanes.control, media := lanes.media, overrun := lanes.overrun, life := lanes.life, outcome := lanes.outcome)
  }

  lemma StillFaulted(s: Session)
    requires Faulted(s)
    ensures Report(s, EventSpool.SessionReady, 0) == s && Say(s, ClientView.SessionReady) == s
  {
  }

  lemma BootIs(s: Session, script: seq<Choice>)
    ensures Next(s, Boot(script))
         == if s.life.Booting? then
              Say(Report(WithScript(s, script).(life := Live), EventSpool.SessionReady, 0), ClientView.SessionReady)
            else s
  {
    hide EmitEvent, EmitOutput;
  }

  lemma TakeControlIs(s: Session, script: seq<Choice>)
    ensures Next(s, TakeControl(script))
         == if s.life.Live? && Running(s) && s.control != [] then
              HandleControl(WithScript(s, script).(control := s.control[1..]), s.control[0])
            else s
  {
    hide HandleControl;
  }

  lemma TakeMediaIs(s: Session, script: seq<Choice>)
    ensures Next(s, TakeMedia(script))
         == if s.life.Live? && Running(s) && s.media != [] then
              HandleMedia(WithScript(s, script).(media := s.media[1..]), s.media[0])
            else s
  {
    hide HandleMedia;
  }

  lemma StopIs(s: Session, step: Step, script: seq<Choice>)
    requires step == Deadline(script) || step == ForceCancel(script) || step == MediaOverrun(script)
    ensures Next(s, step)
         == var t := WithScript(s, script);
            if !s.life.Live? || !Running(s) || (step.MediaOverrun? && !s.overrun) then s
            else if step.MediaOverrun? then FailSession(DropAudio(Report(t, EventSpool.AudioOverrun, 0)))
            else if step.ForceCancel? || s.phase.Ready? then FailSession(t)
            else EndSession(t, Phase.Completed, EventSpool.SessionCompleted)
  {
    hide FailSession, EndSession, EmitEvent;
  }

  lemma TeardownIs(s: Session, script: seq<Choice>)
    ensures Next(s, Teardown(script))
         == if s.life.Live? && !Running(s) then
              TeardownSession(WithScript(s, script)).(life := Flushing(s.io.fault.Some? || s.terminalError))
            else s
  {
    hide EventSpool.PublishTerminal, EventSpool.ProducerStep;
  }

  /** Drive a new session through any steps: it is in the state those steps reach, so, for one,
      what its client received is fenced and its terminal event is the last accepted. */
  method Drive(config: Config, steps: seq<Step>) returns (session: Driven)
    ensures session.Valid() && session.State() == Run(Begin(config), steps)
    ensures EventSpool.ValidConfig(config.spool) && session.actor.inputEpoch < U64_MAX ==>
              && EpochsAscend(session.actor.output) && NothingAfterCompletion(session.actor.output)
              && TerminalLast(session.actor.events.accepted)
  {
    hide Next;
    session := new Driven(config);
    for i := 0 to |steps|
      invariant session.Valid() && fresh(session) && fresh(session.actor) && fresh(session.actor.history)
      invariant fresh(session.actor.recentMessages) && fresh(session.actor.mailboxes)
      invariant Run(Begin(config), steps) == Run(session.State(), steps[i..])
    {
      assert steps[i..][1..] == steps[i + 1..];
      session.Perform(steps[i]);
    }
    if EventSpool.ValidConfig(config.spool) && session.actor.inputEpoch < U64_MAX {
      TerminalIsLast(config, steps, session.State());
      OutputsAreFenced(config, steps, session.State(), 0);
    }
  }
}
