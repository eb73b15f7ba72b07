/** What the session takes in is what arrived: the texts of typed turns and the frames it heard are
    those of the client's messages, each used once, in the order they came. */
module Arrivals {
  import opened Common
  import opened SessionModel
  import opened SystemSafety
  import opened SessionTheorems
  import P = ResponsePipeline
  import T = Transcription

  // ---------- part of a sequence, in order ----------

  predicate Subseq<A(==)>(a: seq<A>, b: seq<A>)
    decreases |b|
  {
    a == []
    || (b != [] && ((a[|a| - 1] == b[|b| - 1] && Subseq(a[..|a| - 1], b[..|b| - 1])) || Subseq(a, b[..|b| - 1])))
  }

  lemma SubseqLonger<A>(a: seq<A>, b: seq<A>, x: A)
    requires Subseq(a, b)
    ensures Subseq(a, b + [x]) && Subseq(a + [x], b + [x])
  {
    assert (b + [x])[..|b|] == b && (a + [x])[..|a|] == a;
  }

  lemma {:induction false} SubseqDrop<A>(a: seq<A>, x: A, c: seq<A>, b: seq<A>)
    requires Subseq(a + [x] + c, b)
    ensures Subseq(a + c, b)
    decreases |b|
  {
    var b', all := b[..|b| - 1], a + [x] + c;
    assert b == b' + [b[|b| - 1]];
    if Subseq(all, b') {
      SubseqDrop(a, x, c, b');
      SubseqLonger(a + c, b', b[|b| - 1]);
    } else if c == [] {
      assert all[..|all| - 1] == a && a + c == a;
      SubseqLonger(a, b', b[|b| - 1]);
    } else {
      var c' := c[..|c| - 1];
      assert all[..|all| - 1] == a + [x] + c' && a + c == (a + c') + [c[|c| - 1]];
      SubseqDrop(a, x, c', b');
      SubseqLonger(a + c', b', b[|b| - 1]);
    }
  }

  // ---------- what arrived, what waits, what was taken in ----------

  function TextsSent(steps: seq<Step>): seq<string> {
    if steps == [] then []
    else
      var last := steps[|steps| - 1];
      TextsSent(steps[..|steps| - 1]) + if last.Arrive? && last.message.body.Text? then [last.message.body.text] else []
  }

  function FramesSent(steps: seq<Step>): seq<seq<byte>> {
    if steps == [] then []
    else
      var last := steps[|steps| - 1];
      FramesSent(steps[..|steps| - 1]) + if last.ArriveFrame? then [last.frame] else []
  }

  function TextsWaiting(media: seq<Media>): seq<string> {
    if media == [] then []
    else (if media[0].Ordered? && media[0].message.body.Text? then [media[0].message.body.text] else []) + TextsWaiting(media[1..])
  }

  function FramesWaiting(media: seq<Media>): seq<seq<byte>> {
    if media == [] then []
    else (if media[0].Frame? then [media[0].bytes] else []) + FramesWaiting(media[1..])
  }

  /** The texts of the typed turns, by turn. */
  function TextsTyped(typed: map<nat, string>, turn: nat): seq<string> {
    (if turn == 0 then [] else TextsTyped(typed, turn - 1)) + if turn in typed then [typed[turn]] else []
  }

  function FramesHeard(heard: seq<Heard>): seq<seq<byte>> {
    if heard == [] then [] else FramesHeard(heard[..|heard| - 1]) + [heard[|heard| - 1].frame]
  }

  lemma SentOne(steps: seq<Step>, x: Step)
    ensures TextsSent(steps + [x]) == TextsSent(steps) + if x.Arrive? && x.message.body.Text? then [x.message.body.text] else []
    ensures FramesSent(steps + [x]) == FramesSent(steps) + if x.ArriveFrame? then [x.frame] else []
  {
    assert (steps + [x])[..|steps|] == steps;
  }

  lemma {:induction false} WaitingOne(media: seq<Media>, m: Media)
    ensures TextsWaiting(media + [m]) == TextsWaiting(media) + if m.Ordered? && m.message.body.Text? then [m.message.body.text] else []
    ensures FramesWaiting(media + [m]) == FramesWaiting(media) + if m.Frame? then [m.bytes] else []
  {
    if media == [] {
      assert media + [m] == [m] && [m][1..] == [];
    } else {
      assert (media + [m])[0] == media[0] && (media + [m])[1..] == media[1..] + [m];
      WaitingOne(media[1..], m);
    }
  }

  lemma {:induction false} TypedSame(typed: map<nat, string>, k: nat, text: string, turn: nat)
    requires turn < k
    ensures TextsTyped(typed[k := text], turn) == TextsTyped(typed, turn)
  {
    if turn > 0 {
      TypedSame(typed, k, text, turn - 1);
    }
  }

  lemma HeardOne(heard: seq<Heard>, h: Heard)
    ensures FramesHeard(heard + [h]) == FramesHeard(heard) + [h.frame]
  {
    assert (heard + [h])[..|heard|] == heard;
  }

  // ---------- the invariant ----------

  ghost predicate Taken(typed: map<nat, string>, turn: nat, heard: seq<Heard>, media: seq<Media>, past: seq<Step>) {
    && (forall k :: k in typed ==> k <= turn)
    && Subseq(TextsTyped(typed, turn) + TextsWaiting(media), TextsSent(past))
    && Subseq(FramesHeard(heard) + FramesWaiting(media), FramesSent(past))
  }

  ghost predicate Carried(s: Session, past: seq<Step>) {
    && Taken(s.input.typed, s.input.epoch, s.input.heard, s.media, past)
    && (forall c :: c in s.control && c.Client? ==> !c.message.body.Text?)
  }

  /** Something happened that neither arrives nor is taken in. */
  lemma TakenLater(typed: map<nat, string>, turn: nat, heard: seq<Heard>, media: seq<Media>, past: seq<Step>, x: Step)
    requires Taken(typed, turn, heard, media, past)
    ensures Taken(typed, turn, heard, media, past + [x])
  {
    hide Subseq, TextsTyped, TextsWaiting, TextsSent, FramesHeard, FramesWaiting, FramesSent;
    SentOne(past, x);
    if x.Arrive? && x.message.body.Text? {
      SubseqLonger(TextsTyped(typed, turn) + TextsWaiting(media), TextsSent(past), x.message.body.text);
    }
    if x.ArriveFrame? {
      SubseqLonger(FramesHeard(heard) + FramesWaiting(media), FramesSent(past), x.frame);
    }
    assert TextsSent(past) + [] == TextsSent(past) && FramesSent(past) + [] == FramesSent(past);
  }

  /** Something arrives and waits. */
  lemma TakenArrives(typed: map<nat, string>, turn: nat, heard: seq<Heard>, media: seq<Media>, past: seq<Step>, x: Step, m: Media)
    requires Taken(typed, turn, heard, media, past)
    requires (x.Arrive? && m == Ordered(x.message)) || (x.ArriveFrame? && m == Frame(x.frame))
    ensures Taken(typed, turn, heard, media + [m], past + [x])
  {
    hide Subseq, TextsTyped, TextsWaiting, TextsSent, FramesHeard, FramesWaiting, FramesSent;
    SentOne(past, x);
    WaitingOne(media, m);
    var texts, frames := TextsTyped(typed, turn) + TextsWaiting(media), FramesHeard(heard) + FramesWaiting(media);
    assert TextsSent(past) + [] == TextsSent(past) && FramesSent(past) + [] == FramesSent(past);
    assert TextsWaiting(media) + [] == TextsWaiting(media) && FramesWaiting(media) + [] == FramesWaiting(media);
    if x.ArriveFrame? {
      SubseqLonger(frames, FramesSent(past), x.frame);
      assert frames + [x.frame] == FramesHeard(heard) + (FramesWaiting(media) + [x.frame]);
    } else if x.message.body.Text? {
      SubseqLonger(texts, TextsSent(past), x.message.body.text);
      assert texts + [x.message.body.text] == TextsTyped(typed, turn) + (TextsWaiting(media) + [x.message.body.text]);
    }
  }

  /** A waiting message is taken off the lane: its text opens the next turn, or it is dropped. */
  lemma TakenText(typed: map<nat, string>, turn: nat, heard: seq<Heard>, media: seq<Media>, past: seq<Step>, typed': map<nat, string>, turn': nat)
    requires Taken(typed, turn, heard, media, past) && media != [] && media[0].Ordered?
    requires (typed' == typed && turn' == turn)
             || (media[0].message.body.Text? && turn' == turn + 1 && typed' == typed[turn + 1 := media[0].message.body.text])
    ensures Taken(typed', turn', heard, media[1..], past)
  {
    var before, rest := TextsTyped(typed, turn), TextsWaiting(media[1..]);
    assert FramesWaiting(media) == FramesWaiting(media[1..]);
    if !media[0].message.body.Text? {
      assert TextsWaiting(media) == rest;
    } else {
      var text := media[0].message.body.text;
      assert before + TextsWaiting(media) == before + [text] + rest;
      if typed' == typed && turn' == turn {
        SubseqDrop(before, text, rest, TextsSent(past));
      } else {
        TypedSame(typed, turn + 1, text, turn);
        assert TextsTyped(typed', turn') == before + [text];
      }
    }
  }

  /** A waiting frame is taken off the lane: it is heard, or dropped. */
  lemma TakenFrame(typed: map<nat, string>, turn: nat, heard: seq<Heard>, media: seq<Media>, past: seq<Step>, turn': nat, heard': seq<Heard>)
    requires Taken(typed, turn, heard, media, past) && media != [] && media[0].Frame? && turn <= turn' <= turn + 1
    requires heard' == heard || heard' == heard + [Heard(turn', media[0].bytes)]
    ensures Taken(typed, turn', heard', media[1..], past)
  {
    hide Subseq, TextsSent, FramesSent, FramesHeard;
    var before, rest, frame := FramesHeard(heard), FramesWaiting(media[1..]), media[0].bytes;
    assert TextsWaiting(media) == TextsWaiting(media[1..]);
    assert TextsTyped(typed, turn') == TextsTyped(typed, turn);
    assert before + FramesWaiting(media) == before + [frame] + rest;
    HeardOne(heard, Heard(turn', frame));
    if heard' == heard {
      SubseqDrop(before, frame, rest, FramesSent(past));
    }
  }

  // ---------- every step keeps it ----------

  lemma CarriedAside(s: Session, past: seq<Step>, x: Step, t: Session)
    requires Carried(s, past) && t.input.typed == s.input.typed && t.input.epoch == s.input.epoch && t.input.heard == s.input.heard
    requires t.media == s.media && (forall c :: c in t.control && c.Client? && c.message.body.Text? ==> c in s.control)
    ensures Carried(t, past + [x])
  {
    hide Taken;
    TakenLater(s.input.typed, s.input.epoch, s.input.heard, s.media, past, x);
  }

  lemma ArriveCarried(s: Session, past: seq<Step>, x: Step)
    requires Carried(s, past) && (x.Arrive? || x.ArriveFrame? || x.Operate?)
    ensures Carried(Next(s, x), past + [x])
  {
    hide Taken;
    TakenLater(s.input.typed, s.input.epoch, s.input.heard, s.media, past, x);
    if x.Arrive? {
      TakenArrives(s.input.typed, s.input.epoch, s.input.heard, s.media, past, x, Ordered(x.message));
    } else if x.ArriveFrame? {
      TakenArrives(s.input.typed, s.input.epoch, s.input.heard, s.media, past, x, Frame(x.frame));
    }
  }

  lemma TakeCarried(s: Session, past: seq<Step>, x: Step)
    requires Carried(s, past) && s.input.epoch < U64_MAX && (x.TakeControl? || x.TakeMedia?)
    ensures Carried(Next(s, x), past + [x])
  {
    hide Taken, HandleControl, HandleMedia;
    TakenLater(s.input.typed, s.input.epoch, s.input.heard, s.media, past, x);
    if s.life.Live? && Running(s) {
      if x.TakeControl? && s.control != [] {
        var t := WithScript(s, x.script).(control := s.control[1..]);
        ControlKept(t, s.control[0]);
        assert s.control[0] in s.control;
      } else if x.TakeMedia? && s.media != [] {
        var t := WithScript(s, x.script).(media := s.media[1..]);
        MediaCarried(s, past + [x], t);
      }
    }
  }

  lemma MediaCarried(s: Session, past: seq<Step>, t: Session)
    requires Carried(s, past) && s.input.epoch < U64_MAX && s.media != [] && t == s.(io := t.io, media := s.media[1..])
    ensures Carried(HandleMedia(t, s.media[0]), past)
  {
    hide Taken, HandleClient, HandleAudio;
    match s.media[0]
    case Frame(bytes) =>
      AudioKept(t, bytes);
      var i := HandleAudio(t, bytes).input;
      TakenFrame(s.input.typed, s.input.epoch, s.input.heard, s.media, past, i.epoch, i.heard);
    case Ordered(m) =>
      ClientKept(t, m);
      var i := HandleClient(t, m).input;
      TakenText(s.input.typed, s.input.epoch, s.input.heard, s.media, past, i.typed, i.epoch);
  }

  lemma StopCarried(s: Session, past: seq<Step>, x: Step)
    requires Carried(s, past) && (x.Deadline? || x.ForceCancel? || x.MediaOverrun?)
    ensures Carried(Next(s, x), past + [x])
  {
    hide Carried, FailSession, EndSession, EmitEvent;
    FailKept(WithScript(s, x.script));
    EndKept(WithScript(s, x.script), Completed, EventSpool.SessionCompleted);
    FailKept(DropAudio(Report(WithScript(s, x.script), EventSpool.AudioOverrun, 0)));
    CarriedAside(s, past, x, Next(s, x));
  }

  lemma NextCarried(s: Session, past: seq<Step>, x: Step)
    requires Carried(s, past) && s.input.epoch < U64_MAX
    ensures Carried(Next(s, x), past + [x])
  {
    hide Carried, Next;
    match x
    case Arrive(_) => ArriveCarried(s, past, x);
    case ArriveFrame(_) => ArriveCarried(s, past, x);
    case Operate(_) => ArriveCarried(s, past, x);
    case TakeControl(_) => TakeCarried(s, past, x);
    case TakeMedia(_) => TakeCarried(s, past, x);
    case Deadline(_) => StopCarried(s, past, x);
    case ForceCancel(_) => StopCarried(s, past, x);
    case MediaOverrun(_) => StopCarried(s, past, x);
    case _ => AsideCarried(s, past, x);
  }

  lemma AsideCarried(s: Session, past: seq<Step>, x: Step)
    requires Carried(s, past) && (x.Boot? || x.RespondTask? || x.ListenTask? || x.Deliver? || x.Teardown? || x.Join? || x.Abort?)
    ensures Carried(Next(s, x), past + [x])
  {
    hide Carried, EmitEvent, EmitOutput, P.Step, T.Step, EventSpool.WorkerStep, EventSpool.PublishTerminal;
    CarriedAside(s, past, x, Next(s, x));
  }

  lemma {:induction false} RunCarried(s: Session, past: seq<Step>, steps: seq<Step>)
    requires Carried(s, past) && Run(s, steps).input.epoch < U64_MAX
    ensures Carried(Run(s, steps), past + steps)
    decreases |steps|
  {
    hide Carried, Next;
    if steps == [] {
      assert past + steps == past;
    } else {
      RunEpoch(s, steps);
      NextCarried(s, past, steps[0]);
      assert past + steps == past + [steps[0]] + steps[1..];
      RunCarried(Next(s, steps[0]), past + [steps[0]], steps[1..]);
    }
  }

  /** A text that is taken up opens the next turn exactly when the session is active and the message
      is not a repetition. */
  lemma TextIsTaken(s: Session, script: seq<Choice>)
    requires s.life.Live? && Running(s) && s.input.epoch < U64_MAX && s.media != [] && s.media[0].Ordered? && s.media[0].message.body.Text?
    ensures var i, m := Next(s, TakeMedia(script)).input, s.media[0].message;
            if s.phase.Active? && m.id !in LastN(s.seen, 1024) then
              i.epoch == s.input.epoch + 1 && i.typed == s.input.typed[i.epoch := m.body.text]
            else i.epoch == s.input.epoch && i.typed == s.input.typed
  {
    hide HandleClient;
    ClientKept(WithScript(s, script).(media := s.media[1..]), s.media[0].message);
  }

  /** A frame that is taken up is heard, in the turn then in progress, exactly when the session is
      active, unless it fails the session. */
  lemma FrameIsTaken(s: Session, script: seq<Choice>)
    requires s.life.Live? && Running(s) && s.media != [] && s.media[0].Frame?
    ensures var t := Next(s, TakeMedia(script));
            Running(t) ==> t.input.heard == s.input.heard + if s.phase.Active? then [Heard(t.input.epoch, s.media[0].bytes)] else []
  {
    hide HandleAudio;
    AudioKept(WithScript(s, script).(media := s.media[1..]), s.media[0].bytes);
  }

  /** The texts of the typed turns and the frames heard are among those that arrived, each used
      once, in the order they came. */
  lemma TakenInOrder(config: Config, steps: seq<Step>, s: Session)
    requires Reached(config, steps, s)
    ensures Subseq(TextsTyped(s.input.typed, s.input.epoch), TextsSent(steps))
    ensures Subseq(FramesHeard(s.input.heard), FramesSent(steps))
  {
    hide Run;
    assert [] + steps == steps;
    assert Subseq<string>([], []) && Subseq<seq<byte>>([], []);
    RunCarried(Begin(config), [], steps);
    hide Subseq;
    SubseqStart(TextsTyped(s.input.typed, s.input.epoch), TextsWaiting(s.media), TextsSent(steps));
    SubseqStart(FramesHeard(s.input.heard), FramesWaiting(s.media), FramesSent(steps));
  }

  lemma {:induction false} SubseqStart<A>(a: seq<A>, c: seq<A>, b: seq<A>)
    requires Subseq(a + c, b)
    ensures Subseq(a, b)
    decreases |c|
  {
    if c == [] {
      assert a + c == a;
    } else {
      assert a + c == a + [c[0]] + c[1..];
      SubseqDrop(a, c[0], c[1..], b);
      SubseqStart(a, c[1..], b);
    }
  }
}
