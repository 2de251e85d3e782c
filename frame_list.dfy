/** `FrameList`: the replay of a decoded command list as a discrete-event
    loop over one `PianoFrame`. A deploy actuates the hand and schedules a
    retract; a move asks the kinematic model for the times at which the
    hand passes each key and queues them; before the next command a due
    retract fires first, then a due key step of the queued movement.
    Every retract, key step and deploy appends a copy of the picture to
    the frame list. */
module Replay {
  import opened Common
  import opened Frame
  import opened Decode

  /** Limits of the rail drive handed to the kinematic model. */
  const MaxVelocity := 300
  const MaxAcceleration := 3000

  /** The replay's state as a value: the picture of the piano, the frames
      captured so far, the times of the queued key steps, the direction
      of the movement and the time of the pending retract (0 when none). */
  datatype Sim = Sim(piano: Snapshot, frames: seq<Snapshot>, movement: seq<real>, direction: int, retractDelay: int)

  /** `abs(d)`. */
  function Abs(d: real): real {
    if d < 0.0 then -d else d
  }

  /** `int(numpy.sign(d))`. */
  function Sign(d: real): int {
    if d > 0.0 then 1 else if d < 0.0 then -1 else 0
  }

  /** `command.duration`: a start or end marker has no such attribute. */
  function Duration(c: Command): Result<int> {
    match c
    case Move(_, _, _, duration, _) => Ok(duration)
    case Deploy(_, _, _, duration, _, _) => Ok(duration)
    case Marker(_, _) => Err(AttributeError)
  }

  /** The picture `PianoFrame()` starts with. */
  function InitialPiano(): Snapshot {
    Snapshot(seq(SolenoidCount, _ => None), 0, 0.0, DefaultTop(), DefaultMiddle(), DefaultBottom())
  }

  /** How much is still queued besides the commands: the key steps and
      the retract, if one is pending. */
  function Queued(s: Sim): nat {
    |s.movement| + if s.retractDelay > 0 then 1 else 0
  }

  /** The pending retract fires at its own time, a frame is captured and
      no retract is pending any more. */
  function Fire(s: Sim): Result<Sim> {
    var q :- Retracted(s.piano, s.retractDelay as real);
    Ok(s.(piano := q, frames := s.frames + [q], retractDelay := 0))
  }

  /** The first queued key step: the hand shifts one key in the movement's
      direction at that step's time and a frame is captured. */
  function Glide(s: Sim): Result<Sim>
    requires |s.movement| > 0
  {
    var q :- Shifted(s.piano, s.direction, s.movement[0]);
    Ok(s.(piano := q, frames := s.frames + [q], movement := s.movement[1..]))
  }

  /** A popped command at time next: a deploy actuates its solenoids,
      schedules the retract at duration + longevity and captures a frame;
      a move queues the kinematic times for the distance from the hand's
      position to the target key; a marker does nothing. */
  function Enact(s: Sim, c: Command, next: int, kin: real -> seq<real>): Result<Sim> {
    match c
    case Deploy(_, _, _, duration, longevity, locations) =>
      var q :- Actuated(s.piano, locations, next as real);
      Ok(s.(piano := q, frames := s.frames + [q], retractDelay := duration + longevity))
    case Move(_, _, position, _, _) =>
      var distance := position as real / KeyWidth as real - s.piano.position as real;
      Ok(s.(movement := kin(Abs(distance)), direction := Sign(distance)))
    case Marker(_, _) => Ok(s)
  }

  /** A pending retract is due before a command at time next. */
  predicate RetractDue(s: Sim, next: int) {
    0 < s.retractDelay < next
  }

  /** A queued key step is due before a command at time next. */
  predicate StepDue(s: Sim, next: int) {
    |s.movement| > 0 && s.movement[0] < next as real
  }

  /** One turn of the replay loop with the commands still to play: the
      due retract, else the due key step, else the next command. Each
      turn plays a command or takes one thing off the queue. */
  function Step(s: Sim, pending: seq<Command>, kin: real -> seq<real>): (r: Result<(Sim, seq<Command>)>)
    requires |pending| > 0
    ensures r.Ok? ==> |r.value.1| < |pending| || (r.value.1 == pending && Queued(r.value.0) < Queued(s))
  {
    var next :- Duration(pending[0]);
    if RetractDue(s, next) then
      var t :- Fire(s);
      Ok((t, pending))
    else if StepDue(s, next) then
      var t :- Glide(s);
      Ok((t, pending))
    else
      var t :- Enact(s, pending[0], next, kin);
      Ok((t, pending[1..]))
  }

  /** The remaining key steps, one after the other. */
  function Drain(s: Sim): Result<Sim>
    decreases |s.movement|
  {
    if |s.movement| == 0 then Ok(s)
    else
      var t :- Glide(s);
      Drain(t)
  }

  /** After the last command: the pending retract, then the remaining key
      steps. */
  function Flush(s: Sim): Result<Sim> {
    var t :- if s.retractDelay > 0 then Fire(s) else Ok(s);
    Drain(t)
  }

  /** `process_command_list`: turns of the loop until no command is left,
      then the flush. */
  function Replayed(s: Sim, pending: seq<Command>, kin: real -> seq<real>): Result<Sim>
    decreases |pending|, Queued(s)
  {
    if |pending| == 0 then Flush(s)
    else
      var t :- Step(s, pending, kin);
      Replayed(t.0, t.1, kin)
  }

  /** The number of deploys among cs. */
  function Deploys(cs: seq<Command>): nat {
    if |cs| == 0 then 0 else (if cs[0].Deploy? then 1 else 0) + Deploys(cs[1..])
  }

  /** A picture of a populated hand, as every operation of the replay
      keeps it. */
  predicate Ready(p: Snapshot) {
    WellFormed(p) && HandPlaced(p.solenoids)
  }

  // ---------------------------------------------------------------------
  // Properties of the replay

  /** The sign is -1, 0 or 1 and agrees with the distance. */
  lemma SignMeaning(d: real)
    ensures -1 <= Sign(d) <= 1
    ensures Sign(d) == 1 <==> d > 0.0
    ensures Sign(d) == -1 <==> d < 0.0
    ensures Sign(d) as real * d == Abs(d)
  {
  }

  /** A due retract fires at its own time: the hand's slots and position
      stay, the retract is no longer pending, the commands and the queued
      key steps are kept and exactly one frame, the new picture, is
      captured. */
  lemma StepRetract(s: Sim, pending: seq<Command>, kin: real -> seq<real>)
    requires |pending| > 0 && Ready(s.piano) && Duration(pending[0]).Ok?
    requires RetractDue(s, Duration(pending[0]).value)
    ensures Step(s, pending, kin).Ok?
    ensures Step(s, pending, kin).value.1 == pending
    ensures Step(s, pending, kin).value.0.frames == s.frames + [Step(s, pending, kin).value.0.piano]
    ensures Step(s, pending, kin).value.0.retractDelay == 0
    ensures Step(s, pending, kin).value.0.movement == s.movement
    ensures Step(s, pending, kin).value.0.piano.solenoids == s.piano.solenoids
    ensures Step(s, pending, kin).value.0.piano.position == s.piano.position
    ensures Step(s, pending, kin).value.0.piano.time == s.retractDelay as real
  {
    RetractSucceeds(s.piano, s.retractDelay as real);
    RetractKeeps(s.piano, s.retractDelay as real);
  }

  /** Otherwise a due key step pops exactly one time off the queue and
      moves the hand by the movement's direction, or raises IndexError
      when the new position is out of reach; one frame is captured. */
  lemma StepGlide(s: Sim, pending: seq<Command>, kin: real -> seq<real>)
    requires |pending| > 0 && Ready(s.piano) && Duration(pending[0]).Ok?
    requires !RetractDue(s, Duration(pending[0]).value) && StepDue(s, Duration(pending[0]).value)
    ensures Step(s, pending, kin).Ok? <==> InReach(s.piano.position + s.direction)
    ensures Step(s, pending, kin).Err? ==> Step(s, pending, kin).error == IndexError
    ensures Step(s, pending, kin).Ok? ==>
              && Step(s, pending, kin).value.1 == pending
              && Step(s, pending, kin).value.0.movement == s.movement[1..]
              && Step(s, pending, kin).value.0.frames == s.frames + [Step(s, pending, kin).value.0.piano]
              && Step(s, pending, kin).value.0.piano.position == s.piano.position + s.direction
              && Step(s, pending, kin).value.0.piano.time == s.movement[0]
              && Step(s, pending, kin).value.0.retractDelay == s.retractDelay
  {
    ShiftMeaning(s.piano, s.direction, s.movement[0]);
    if Shifted(s.piano, s.direction, s.movement[0]).Ok? {
      ShiftKeeps(s.piano, s.direction, s.movement[0]);
    }
  }

  /** Otherwise a deploy is played at its own time: it raises ValueError
      when it names a solenoid past the seventeenth, and else keeps the
      hand where it is, schedules the retract at duration + longevity and
      captures exactly one frame. */
  lemma StepDeploy(s: Sim, pending: seq<Command>, kin: real -> seq<real>)
    requires |pending| > 0 && Ready(s.piano) && pending[0].Deploy?
    requires !RetractDue(s, pending[0].duration) && !StepDue(s, pending[0].duration)
    ensures Step(s, pending, kin).Ok? <==>
              forall i :: 0 <= i < |pending[0].solenoidLocations| ==> pending[0].solenoidLocations[i] < SolenoidCount
    ensures Step(s, pending, kin).Err? ==> Step(s, pending, kin).error == ValueError
    ensures Step(s, pending, kin).Ok? ==>
              && Step(s, pending, kin).value.1 == pending[1..]
              && Step(s, pending, kin).value.0.frames == s.frames + [Step(s, pending, kin).value.0.piano]
              && Step(s, pending, kin).value.0.piano.solenoids == s.piano.solenoids
              && Step(s, pending, kin).value.0.piano.position == s.piano.position
              && Step(s, pending, kin).value.0.piano.time == pending[0].duration as real
              && Step(s, pending, kin).value.0.retractDelay == pending[0].duration + pending[0].longevity
              && Step(s, pending, kin).value.0.movement == s.movement
  {
    var c := pending[0];
    ActuateSucceeds(s.piano, c.solenoidLocations, c.duration as real);
    if Actuated(s.piano, c.solenoidLocations, c.duration as real).Ok? {
      ActuateKeeps(s.piano, c.solenoidLocations, c.duration as real);
    }
  }

  /** Otherwise a move captures no frame and leaves the picture alone: it
      replaces the queue by the kinematic times for the distance to its
      target, in the direction of the target. */
  lemma StepMove(s: Sim, pending: seq<Command>, kin: real -> seq<real>)
    requires |pending| > 0 && pending[0].Move?
    requires !RetractDue(s, pending[0].duration) && !StepDue(s, pending[0].duration)
    ensures Step(s, pending, kin).Ok?
    ensures Step(s, pending, kin).value.1 == pending[1..]
    ensures Step(s, pending, kin).value.0.frames == s.frames
    ensures Step(s, pending, kin).value.0.piano == s.piano
    ensures Step(s, pending, kin).value.0.retractDelay == s.retractDelay
    ensures Step(s, pending, kin).value.0.movement ==
              kin(Abs(pending[0].position as real / KeyWidth as real - s.piano.position as real))
    ensures Step(s, pending, kin).value.0.direction == 1 <==>
              pending[0].position as real / KeyWidth as real > s.piano.position as real
    ensures Step(s, pending, kin).value.0.direction == -1 <==>
              pending[0].position as real / KeyWidth as real < s.piano.position as real
  {
    SignMeaning(pending[0].position as real / KeyWidth as real - s.piano.position as real);
  }

  /** A marker at the head of the commands raises AttributeError. */
  lemma StepMarker(s: Sim, pending: seq<Command>, kin: real -> seq<real>)
    requires |pending| > 0 && pending[0].Marker?
    ensures Step(s, pending, kin) == Err(AttributeError)
  {
  }

  /** Each turn keeps the hand populated. */
  lemma StepReady(s: Sim, pending: seq<Command>, kin: real -> seq<real>)
    requires |pending| > 0 && Ready(s.piano) && Step(s, pending, kin).Ok?
    ensures Ready(Step(s, pending, kin).value.0.piano)
  {
    var next := Duration(pending[0]).value;
    if RetractDue(s, next) {
      StepRetract(s, pending, kin);
      RetractKeeps(s.piano, s.retractDelay as real);
    } else if StepDue(s, next) {
      ShiftMeaning(s.piano, s.direction, s.movement[0]);
    } else if pending[0].Deploy? {
      ActuateKeeps(s.piano, pending[0].solenoidLocations, next as real);
    }
  }

  /** Each turn only appends to the frames, and a deploy appends one. */
  lemma StepFrames(s: Sim, pending: seq<Command>, kin: real -> seq<real>)
    requires |pending| > 0 && Step(s, pending, kin).Ok?
    ensures s.frames <= Step(s, pending, kin).value.0.frames
    ensures |Step(s, pending, kin).value.0.frames| - |s.frames| + Deploys(Step(s, pending, kin).value.1) >= Deploys(pending)
  {
    var t := Step(s, pending, kin).value;
    if t.1 != pending {
      assert t.1 == pending[1..];
    }
  }

  /** Draining keeps the hand populated, leaves the queue empty, only
      appends frames and fails only with IndexError. */
  lemma {:induction false} DrainMeaning(s: Sim)
    requires Ready(s.piano)
    ensures Drain(s).Err? ==> Drain(s).error == IndexError
    ensures Drain(s).Ok? ==>
              Ready(Drain(s).value.piano) && Drain(s).value.movement == [] &&
              s.frames <= Drain(s).value.frames && Drain(s).value.retractDelay == s.retractDelay
    decreases |s.movement|
  {
    if |s.movement| > 0 {
      ShiftMeaning(s.piano, s.direction, s.movement[0]);
      if Glide(s).Ok? {
        DrainMeaning(Glide(s).value);
      }
    }
  }

  /** The flush leaves nothing queued and no retract pending (a negative
      delay is never fired and stays). */
  lemma FlushMeaning(s: Sim)
    requires Ready(s.piano)
    ensures Flush(s).Err? ==> Flush(s).error == IndexError
    ensures Flush(s).Ok? ==>
              Ready(Flush(s).value.piano) && Flush(s).value.movement == [] && s.frames <= Flush(s).value.frames &&
              Flush(s).value.retractDelay == (if s.retractDelay > 0 then 0 else s.retractDelay)
  {
    if s.retractDelay > 0 {
      RetractSucceeds(s.piano, s.retractDelay as real);
      RetractKeeps(s.piano, s.retractDelay as real);
      DrainMeaning(Fire(s).value);
    } else {
      DrainMeaning(s);
    }
  }

  /** A finished replay played every command, none of them a marker; the
      queue is empty and no retract is pending (given no negative delays);
      the frames already captured stay at the front, followed by at least
      one frame per deploy; the hand is still populated. */
  lemma {:induction false} ReplayMeaning(s: Sim, pending: seq<Command>, kin: real -> seq<real>)
    requires Ready(s.piano)
    requires Replayed(s, pending, kin).Ok?
    ensures forall i :: 0 <= i < |pending| ==> !pending[i].Marker?
    ensures Replayed(s, pending, kin).value.movement == []
    ensures Replayed(s, pending, kin).value.retractDelay <= 0
    ensures s.retractDelay >= 0 && (forall i :: 0 <= i < |pending| && pending[i].Deploy? ==>
                                     pending[i].duration + pending[i].longevity >= 0) ==>
              Replayed(s, pending, kin).value.retractDelay == 0
    ensures s.frames <= Replayed(s, pending, kin).value.frames
    ensures |Replayed(s, pending, kin).value.frames| >= |s.frames| + Deploys(pending)
    ensures Ready(Replayed(s, pending, kin).value.piano)
    decreases |pending|, Queued(s)
  {
    if |pending| == 0 {
      FlushMeaning(s);
    } else {
      var t := Step(s, pending, kin).value;
      StepReady(s, pending, kin);
      StepFrames(s, pending, kin);
      ReplayMeaning(t.0, t.1, kin);
      if t.1 != pending {
        assert t.1 == pending[1..];
        forall i | 0 <= i < |t.1| ensures t.1[i] == pending[i + 1] { }
      }
      assert !pending[0].Marker?;
      if s.retractDelay >= 0 && (forall i :: 0 <= i < |pending| && pending[i].Deploy? ==>
                                  pending[i].duration + pending[i].longevity >= 0) {
        assert t.0.retractDelay >= 0;
      }
    }
  }

  /** On a populated hand a replay fails only with AttributeError (a
      marker among the commands), IndexError (a key step out of reach) or
      ValueError (a deploy naming a solenoid past the seventeenth). */
  lemma {:induction false} ReplayErrors(s: Sim, pending: seq<Command>, kin: real -> seq<real>)
    requires Ready(s.piano)
    requires Replayed(s, pending, kin).Err?
    ensures Replayed(s, pending, kin).error in {AttributeError, IndexError, ValueError}
    decreases |pending|, Queued(s)
  {
    if |pending| == 0 {
      FlushMeaning(s);
    } else if Step(s, pending, kin).Ok? {
      StepReady(s, pending, kin);
      var t := Step(s, pending, kin).value;
      ReplayErrors(t.0, t.1, kin);
    } else if pending[0].Marker? {
    } else {
      var next := Duration(pending[0]).value;
      if RetractDue(s, next) {
        StepRetract(s, pending, kin);
      } else if StepDue(s, next) {
        StepGlide(s, pending, kin);
      } else if pending[0].Deploy? {
        StepDeploy(s, pending, kin);
      } else {
        StepMove(s, pending, kin);
      }
    }
  }

  // ---------------------------------------------------------------------
  // The FrameList object

  /** `FrameList`: the piano being played, the captured frames, the queued
      key steps and their direction, and the pending retract's time.
      `kinematics` is the model's `timeDistanceList` for the key width and
      the drive limits above, as a function of the distance. */
  class FrameList {
    const pianoState: PianoFrame
    const kinematics: real -> seq<real>
    var frames: seq<Snapshot>
    var movement: seq<real>
    var movementDirection: int
    var retractDelay: int

    ghost predicate Valid()
      reads this, pianoState
    {
      pianoState.Valid()
    }

    /** The replay's state as a value. */
    function Now(): Sim
      reads this, pianoState
    {
      Sim(pianoState.Snap(), frames, movement, movementDirection, retractDelay)
    }

    /** `FrameList()`: a new piano with the hand populated at the initial
        position, no frames, nothing queued, no retract pending. */
    constructor (kinematics: real -> seq<real>)
      ensures Valid() && fresh(pianoState) && this.kinematics == kinematics
      ensures Populated(InitialPiano(), InitialHandPosition) == Ok(pianoState.Snap())
      ensures Ready(pianoState.Snap()) && pianoState.currentPosition == InitialHandPosition
      ensures frames == [] && movement == [] && movementDirection == 0 && retractDelay == 0
    {
      var piano := new PianoFrame();
      PopulateSucceeds(piano.Snap(), InitialHandPosition);
      PopulateKeeps(piano.Snap(), InitialHandPosition);
      PopulatePlaces(piano.Snap(), InitialHandPosition);
      var r := piano.PopulateHand(InitialHandPosition);
      pianoState := piano;
      this.kinematics := kinematics;
      frames := [];
      movement := [];
      movementDirection := 0;
      retractDelay := 0;
    }

    /** `__capture_frame`: a copy of the picture joins the frames. */
    method CaptureFrame()
      modifies this`frames
      ensures frames == old(frames) + [pianoState.Snap()]
    {
      frames := frames + [pianoState.Snap()];
    }

    /** `move_hand(distance)`: the kinematic times for the distance are
        queued, unshifted (the loop over them only rebinds a local), and
        the direction is the distance's sign. */
    method MoveHand(distance: real)
      modifies this`movement, this`movementDirection
      ensures movement == kinematics(Abs(distance)) && movementDirection == Sign(distance)
      ensures -1 <= movementDirection <= 1
    {
      movement := kinematics(Abs(distance));
      for i := 0 to |movement|
        invariant movement == kinematics(Abs(distance))
      {
        var time := movement[i];
        time := time + pianoState.frameTime;
      }
      movementDirection := Sign(distance);
      SignMeaning(distance);
    }

    /** The due retract: retract at its time, capture, clear it. */
    method FireRetract() returns (r: Outcome)
      requires Valid()
      modifies this`frames, this`retractDelay, pianoState
      ensures Valid()
      ensures r.Done? <==> Fire(old(Now())).Ok?
      ensures r.Done? ==> Now() == Fire(old(Now())).value
      ensures r.Raised? ==> Fire(old(Now())) == Err(r.error)
    {
      r := pianoState.Retract(retractDelay as real);
      if r.Raised? {
        return;
      }
      CaptureFrame();
      retractDelay := 0;
    }

    /** The next key step: pop its time, shift the hand, capture. */
    method GlideOnce() returns (r: Outcome)
      requires Valid() && |movement| > 0
      modifies this`frames, this`movement, pianoState
      ensures Valid()
      ensures r.Done? <==> Glide(old(Now())).Ok?
      ensures r.Done? ==> Now() == Glide(old(Now())).value
      ensures r.Raised? ==> Glide(old(Now())) == Err(r.error)
    {
      var time := movement[0];
      movement := movement[1..];
      r := pianoState.ShiftHand(movementDirection, time);
      if r.Raised? {
        return;
      }
      CaptureFrame();
    }

    /** One turn of the loop of `process_command_list`. */
    method Advance(commandList: CommandList) returns (r: Outcome)
      requires Valid() && |commandList.inOrderCommands| > 0
      modifies this`frames, this`movement, this`movementDirection, this`retractDelay, pianoState
      modifies commandList`inOrderCommands
      ensures Valid()
      ensures r.Done? <==> Step(old(Now()), old(commandList.inOrderCommands), kinematics).Ok?
      ensures r.Done? ==>
                Step(old(Now()), old(commandList.inOrderCommands), kinematics) == Ok((Now(), commandList.inOrderCommands))
      ensures r.Raised? ==> Step(old(Now()), old(commandList.inOrderCommands), kinematics) == Err(r.error)
    {
      var command := commandList.inOrderCommands[0];
      if command.Marker? {
        return Raised(AttributeError);
      }
      var nextCommandTime := command.duration;
      if retractDelay > 0 && retractDelay < nextCommandTime {
        r := FireRetract();
        return;
      }
      if |movement| > 0 && movement[0] < nextCommandTime as real {
        r := GlideOnce();
        return;
      }
      commandList.inOrderCommands := commandList.inOrderCommands[1..];
      r := Play(command, nextCommandTime);
    }

    /** The popped command played at time next: a deploy actuates and
        schedules its retract, a move queues the key steps. */
    method Play(command: Command, next: int) returns (r: Outcome)
      requires Valid() && !command.Marker?
      modifies this`frames, this`movementDirection, this`movement, this`retractDelay, pianoState
      ensures Valid()
      ensures r.Done? <==> Enact(old(Now()), command, next, kinematics).Ok?
      ensures r.Done? ==> Now() == Enact(old(Now()), command, next, kinematics).value
      ensures r.Raised? ==> Enact(old(Now()), command, next, kinematics) == Err(r.error)
    {
      if command.Deploy? {
        r := PlayDeploy(command, next);
      } else {
        var distanceInKeys := command.position as real / KeyWidth as real - pianoState.currentPosition as real;
        MoveHand(distanceInKeys);
        r := Done;
      }
    }

    /** A popped deploy: actuate at time next, schedule the retract,
        capture. */
    method PlayDeploy(command: Command, next: int) returns (r: Outcome)
      requires Valid() && command.Deploy?
      modifies this`frames, this`retractDelay, pianoState
      ensures Valid()
      ensures r.Done? <==> Enact(old(Now()), command, next, kinematics).Ok?
      ensures r.Done? ==> Now() == Enact(old(Now()), command, next, kinematics).value
      ensures r.Raised? ==> Enact(old(Now()), command, next, kinematics) == Err(r.error)
    {
      r := pianoState.Actuate(command.solenoidLocations, next as real);
      if r.Raised? {
        return;
      }
      retractDelay := command.duration + command.longevity;
      CaptureFrame();
    }

    /** The end of `process_command_list`: the pending retract, then the
        remaining key steps. */
    method FlushPending() returns (r: Outcome)
      requires Valid()
      modifies this`frames, this`movement, this`retractDelay, pianoState
      ensures Valid()
      ensures r.Done? <==> Flush(old(Now())).Ok?
      ensures r.Done? ==> Now() == Flush(old(Now())).value
      ensures r.Raised? ==> Flush(old(Now())) == Err(r.error)
    {
      if retractDelay > 0 {
        r := FireRetract();
        if r.Raised? {
          return;
        }
      }
      ghost var goal := Drain(Now());
      while |movement| > 0
        invariant Valid()
        invariant Drain(Now()) == goal
        decreases |movement|
      {
        r := GlideOnce();
        if r.Raised? {
          return;
        }
      }
      r := Done;
    }

    /** `process_command_list(command_list)`: plays the whole list, which
        is left empty, and flushes. */
    method ProcessCommandList(commandList: CommandList) returns (r: Outcome)
      requires Valid()
      modifies this`frames, this`movement, this`movementDirection, this`retractDelay, pianoState
      modifies commandList`inOrderCommands
      ensures Valid()
      ensures r.Done? <==> Replayed(old(Now()), old(commandList.inOrderCommands), kinematics).Ok?
      ensures r.Done? ==>
                Now() == Replayed(old(Now()), old(commandList.inOrderCommands), kinematics).value &&
                commandList.inOrderCommands == []
      ensures r.Raised? ==> Replayed(old(Now()), old(commandList.inOrderCommands), kinematics) == Err(r.error)
    {
      ghost var goal := Replayed(Now(), commandList.inOrderCommands, kinematics);
      while |commandList.inOrderCommands| > 0
        invariant Valid()
        invariant Replayed(Now(), commandList.inOrderCommands, kinematics) == goal
        decreases |commandList.inOrderCommands|, Queued(Now())
      {
        r := Advance(commandList);
        if r.Raised? {
          return;
        }
      }
      r := FlushPending();
    }
  }
}
