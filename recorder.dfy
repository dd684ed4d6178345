/**
 * The record/replay component of a vehicle (RCC_Recorder).
 *
 * A recorder is in one of three modes. While it records, every physics step appends the
 * vehicle's inputs, pose and rigid-body velocities to three parallel buffers; stopping
 * the recording freezes the buffers into a RecordedClip that is appended to the shared
 * list of records. Playing a clip drives the vehicle from it through two coroutines,
 * Replay over the clip's inputs and Revel over its velocities, each resumed once per
 * physics step, until either runs out or the mode leaves Play.
 *
 * The recorded payloads are only copied, never computed with, so their float, Vector3 and
 * Quaternion fields are carried as reals. Each coroutine is a cursor plus a running flag,
 * and one resumption of it is one method call.
 */
module RecordReplay {
  import opened Wrappers

  datatype Mode = Neutral | Play | Record

  datatype Vector3 = Vector3(x: real, y: real, z: real)
  datatype Quaternion = Quaternion(x: real, y: real, z: real, w: real)

  /** One step's inputs. indicatorsOn is RCC_CarControllerV4.IndicatorsOn, carried as the
      enum's underlying integer. */
  datatype PlayerInput = PlayerInput(
    throttleInput: real, brakeInput: real, steerInput: real, handbrakeInput: real,
    clutchInput: real, boostInput: real, fuelInput: real, direction: int,
    canGoReverse: bool, currentGear: int, changingGear: bool, indicatorsOn: int,
    lowBeamHeadLightsOn: bool, highBeamHeadLightsOn: bool)

  /** One step's pose. */
  datatype PlayerTransform = PlayerTransform(position: Vector3, rotation: Quaternion)

  /** One step's rigid-body velocities. */
  datatype PlayerRigidBody = PlayerRigidBody(velocity: Vector3, angularVelocity: Vector3)

  /** A finished recording; it is never changed after it is built. */
  datatype RecordedClip = RecordedClip(
    inputs: seq<PlayerInput>, transforms: seq<PlayerTransform>, rigids: seq<PlayerRigidBody>,
    recordName: string)

  function Min(a: int, b: int): int
  {
    if a <= b then a else b
  }

  // ---------------------------------------------------------------------------
  // Record names: the number of earlier records in decimal, "_", the vehicle's name

  function DigitChar(d: nat): (c: char)
    requires d < 10
    ensures '0' <= c <= '9' && c as int - '0' as int == d
  {
    ('0' as int + d) as char
  }

  /** int.ToString() of a non-negative number: its decimal digits, without leading zeros. */
  function NatToString(n: nat): (s: string)
    ensures |s| >= 1
    ensures forall i :: 0 <= i < |s| ==> '0' <= s[i] <= '9'
    decreases n
  {
    if n < 10 then [DigitChar(n)] else NatToString(n / 10) + [DigitChar(n % 10)]
  }

  /** The number a string of decimal digits denotes. */
  function DigitsValue(s: string): nat
    requires forall i :: 0 <= i < |s| ==> '0' <= s[i] <= '9'
  {
    if s == [] then 0 else DigitsValue(s[..|s| - 1]) * 10 + (s[|s| - 1] as int - '0' as int)
  }

  lemma {:induction false} NatToStringRoundTrip(n: nat)
    ensures DigitsValue(NatToString(n)) == n
    decreases n
  {
    if n >= 10 {
      var s := NatToString(n);
      assert s[..|s| - 1] == NatToString(n / 10);
      NatToStringRoundTrip(n / 10);
    }
  }

  /** The name SaveRecord gives a clip. */
  function RecordName(count: nat, vehicleName: string): string
  {
    NatToString(count) + "_" + vehicleName
  }

  /** A record name determines both the record count and the vehicle name it was made from;
      in particular two saves at different counts never produce the same name. */
  lemma RecordNameInjective(a: nat, v: string, b: nat, w: string)
    ensures RecordName(a, v) == RecordName(b, w) ==> a == b && v == w
  {
    var s, t := NatToString(a), NatToString(b);
    var x, y := RecordName(a, v), RecordName(b, w);
    if x == y {
      assert forall i :: 0 <= i < |s| ==> x[i] == s[i] && x[i] != '_';
      assert forall i :: 0 <= i < |t| ==> y[i] == t[i] && y[i] != '_';
      assert x[|s|] == '_' && y[|t|] == '_';
      assert |s| == |t|;
      assert s == x[..|s|] && t == y[..|t|];
      NatToStringRoundTrip(a);
      NatToStringRoundTrip(b);
      assert v == x[|s| + 1..] && w == y[|t| + 1..];
    }
  }

  // ---------------------------------------------------------------------------
  // The objects the recorder talks to

  /** The vehicle. controls stands for the fourteen input, gear and light fields the recorder
      reads while recording and writes while replaying. */
  class CarController {
    var externalController: bool
    var controls: PlayerInput
    var position: Vector3
    var rotation: Quaternion
    var linearVelocity: Vector3
    var angularVelocity: Vector3
    /** transform.name */
    const name: string

    constructor (name: string)
      ensures this.name == name && !externalController
    {
      this.name := name;
      externalController := false;
    }
  }

  /** The shared list of records (RCC_Records.Instance). */
  class RecordStore {
    var records: seq<RecordedClip>

    constructor ()
      ensures records == []
    {
      records := [];
    }
  }

  // ---------------------------------------------------------------------------
  // The recorder

  class Recorder {
    /** The vehicle; FixedUpdate does nothing when there is none. */
    const car: CarController?
    const store: RecordStore
    var mode: Mode
    /** The clip Play replays; None stands for C#'s null. */
    var recorded: Option<RecordedClip>
    // The buffers of the recording in progress (Inputs, Transforms, Rigidbodies).
    var inputs: seq<PlayerInput>
    var transforms: seq<PlayerTransform>
    var rigidbodies: seq<PlayerRigidBody>
    // The Replay and Revel coroutines. A cursor is the coroutine's loop index i as it stands
    // after the increment that follows each yield: the number of entries applied so far.
    var replayRunning: bool
    var replayCursor: nat
    var revelRunning: bool
    var revelCursor: nat

    ghost predicate Valid()
      reads this
    {
      // the three buffers are index-aligned
      && |inputs| == |transforms| == |rigidbodies|
      // a running coroutine has a clip to read
      && (replayRunning || revelRunning ==> recorded.Some?)
      // while playing, both coroutines run and their cursors move in lockstep
      && (mode == Mode.Play ==> replayRunning && revelRunning && replayCursor == revelCursor)
    }

    /** The component as Awake leaves it. */
    constructor (car: CarController?, store: RecordStore)
      ensures Valid() && this.car == car && this.store == store
      ensures mode == Neutral && recorded == None
      ensures inputs == [] && transforms == [] && rigidbodies == []
      ensures !replayRunning && !revelRunning
    {
      this.car := car;
      this.store := store;
      mode := Neutral;
      recorded := None;
      inputs, transforms, rigidbodies := [], [], [];
      replayRunning, replayCursor := false, 0;
      revelRunning, revelCursor := false, 0;
    }

    /** Freezes the buffers into a clip, makes it the clip to replay and appends it to the
        shared list. */
    method SaveRecord()
      requires Valid() && car != null
      modifies this`recorded, store`records
      ensures Valid()
      ensures recorded == Some(RecordedClip(inputs, transforms, rigidbodies,
                                             RecordName(|old(store.records)|, car.name)))
      ensures store.records == old(store.records) + [recorded.value]
    {
      recorded := Some(RecordedClip(inputs, transforms, rigidbodies,
                                    RecordName(|store.records|, car.name)));
      store.records := store.records + [recorded.value];
    }

    /** Toggles recording: from Neutral or Play it starts a recording with empty buffers,
        from Record it returns to Neutral and saves the recording exactly once. */
    method Record()
      requires Valid()
      requires mode == Mode.Record ==> car != null
      modifies this`mode, this`inputs, this`transforms, this`rigidbodies, this`recorded, store`records
      ensures Valid()
      ensures old(mode) != Mode.Record ==>
                && mode == Mode.Record
                && inputs == [] && transforms == [] && rigidbodies == []
                && recorded == old(recorded) && store.records == old(store.records)
      ensures old(mode) == Mode.Record ==>
                && mode == Neutral
                && inputs == old(inputs) && transforms == old(transforms) && rigidbodies == old(rigidbodies)
                && recorded == Some(RecordedClip(old(inputs), old(transforms), old(rigidbodies),
                                                 RecordName(|old(store.records)|, car.name)))
                && store.records == old(store.records) + [recorded.value]
    {
      if mode != Mode.Record {
        mode := Mode.Record;
      } else {
        mode := Neutral;
        SaveRecord();
      }
      if mode == Mode.Record {
        inputs, transforms, rigidbodies := [], [], [];
      }
    }

    /** One resumption of Replay: test the loop condition, then either apply the next input
        and yield, or leave the loop, which returns the vehicle to its own controls. */
    method ReplayStep()
      requires car != null
      requires replayRunning ==> recorded.Some?
      modifies this`mode, this`replayRunning, this`replayCursor, car`externalController, car`controls
      ensures !old(replayRunning) ==>
                && mode == old(mode) && !replayRunning && replayCursor == old(replayCursor)
                && car.externalController == old(car.externalController) && car.controls == old(car.controls)
      ensures old(replayRunning) && old(mode) == Mode.Play && old(replayCursor) < |recorded.value.inputs| ==>
                && mode == Mode.Play && replayRunning && replayCursor == old(replayCursor) + 1
                && car.externalController && car.controls == recorded.value.inputs[old(replayCursor)]
      ensures old(replayRunning) && !(old(mode) == Mode.Play && old(replayCursor) < |recorded.value.inputs|) ==>
                && mode == Neutral && !replayRunning && replayCursor == old(replayCursor)
                && !car.externalController && car.controls == old(car.controls)
    {
      if replayRunning {
        if replayCursor < |recorded.value.inputs| && mode == Mode.Play {
          car.externalController := true;
          car.controls := recorded.value.inputs[replayCursor];
          replayCursor := replayCursor + 1;
        } else {
          replayRunning := false;
          mode := Neutral;
          car.externalController := false;
        }
      }
    }

    /** One resumption of Revel: the same over the clip's rigid-body velocities. */
    method RevelStep()
      requires car != null
      requires revelRunning ==> recorded.Some?
      modifies this`mode, this`revelRunning, this`revelCursor,
               car`externalController, car`linearVelocity, car`angularVelocity
      ensures !old(revelRunning) ==>
                && mode == old(mode) && !revelRunning && revelCursor == old(revelCursor)
                && car.externalController == old(car.externalController)
                && car.linearVelocity == old(car.linearVelocity) && car.angularVelocity == old(car.angularVelocity)
      ensures old(revelRunning) && old(mode) == Mode.Play && old(revelCursor) < |recorded.value.rigids| ==>
                && mode == Mode.Play && revelRunning && revelCursor == old(revelCursor) + 1
                && car.externalController == old(car.externalController)
                && car.linearVelocity == recorded.value.rigids[old(revelCursor)].velocity
                && car.angularVelocity == recorded.value.rigids[old(revelCursor)].angularVelocity
      ensures old(revelRunning) && !(old(mode) == Mode.Play && old(revelCursor) < |recorded.value.rigids|) ==>
                && mode == Neutral && !revelRunning && revelCursor == old(revelCursor)
                && !car.externalController
                && car.linearVelocity == old(car.linearVelocity) && car.angularVelocity == old(car.angularVelocity)
    {
      if revelRunning {
        if revelCursor < |recorded.value.rigids| && mode == Mode.Play {
          car.linearVelocity := recorded.value.rigids[revelCursor].velocity;
          car.angularVelocity := recorded.value.rigids[revelCursor].angularVelocity;
          revelCursor := revelCursor + 1;
        } else {
          revelRunning := false;
          mode := Neutral;
          car.externalController := false;
        }
      }
    }

    /** What both Play overloads do once they have a clip: toggle between Play and Neutral;
        on entering Play start Replay, move the vehicle to the clip's first pose when there is
        one, and start Revel. Starting a coroutine runs it up to its first yield. */
    twostate predicate PlaybackToggled()
      requires car != null && recorded.Some?
      reads this, car
    {
      var clip := recorded.value;
      && car.externalController == (mode == Mode.Play)
      && (old(mode) == Mode.Play ==>
            && mode == Neutral
            && replayRunning == old(replayRunning) && replayCursor == old(replayCursor)
            && revelRunning == old(revelRunning) && revelCursor == old(revelCursor)
            && car.controls == old(car.controls)
            && car.position == old(car.position) && car.rotation == old(car.rotation)
            && car.linearVelocity == old(car.linearVelocity) && car.angularVelocity == old(car.angularVelocity))
      && (old(mode) != Mode.Play ==>
            && mode == (if |clip.inputs| > 0 && |clip.rigids| > 0 then Mode.Play else Neutral)
            && replayRunning == (|clip.inputs| > 0)
            && revelRunning == (|clip.inputs| > 0 && |clip.rigids| > 0)
            && replayCursor == (if |clip.inputs| > 0 then 1 else 0)
            && revelCursor == (if |clip.inputs| > 0 && |clip.rigids| > 0 then 1 else 0)
            && car.controls == (if |clip.inputs| > 0 then clip.inputs[0] else old(car.controls))
            && (|clip.transforms| > 0 ==>
                  car.position == clip.transforms[0].position && car.rotation == clip.transforms[0].rotation)
            && (|clip.transforms| == 0 ==>
                  car.position == old(car.position) && car.rotation == old(car.rotation))
            && (|clip.inputs| > 0 && |clip.rigids| > 0 ==>
                  car.linearVelocity == clip.rigids[0].velocity
                  && car.angularVelocity == clip.rigids[0].angularVelocity)
            && (|clip.inputs| == 0 || |clip.rigids| == 0 ==>
                  car.linearVelocity == old(car.linearVelocity)
                  && car.angularVelocity == old(car.angularVelocity)))
    }

    method TogglePlayback()
      requires Valid() && car != null && recorded.Some?
      modifies this`mode, this`replayRunning, this`replayCursor, this`revelRunning, this`revelCursor,
               car`externalController, car`controls, car`position, car`rotation,
               car`linearVelocity, car`angularVelocity
      ensures Valid()
      ensures PlaybackToggled()
    {
      if mode != Mode.Play {
        mode := Mode.Play;
      } else {
        mode := Neutral;
      }
      car.externalController := mode == Mode.Play;
      if mode == Mode.Play {
        replayRunning, replayCursor := true, 0;
        ReplayStep();
        var clip := recorded.value;
        if |clip.transforms| > 0 {
          car.position, car.rotation := clip.transforms[0].position, clip.transforms[0].rotation;
        }
        revelRunning, revelCursor := true, 0;
        RevelStep();
      }
    }

    /** Play(): toggles playback of the last recorded clip; without one it changes nothing. */
    method Play()
      requires Valid() && (recorded.Some? ==> car != null)
      modifies this`mode, this`replayRunning, this`replayCursor, this`revelRunning, this`revelCursor, car
      ensures Valid()
      ensures old(recorded) == None ==> unchanged(this) && (car != null ==> unchanged(car))
      ensures old(recorded) != None ==> PlaybackToggled()
    {
      if recorded == None {
        return;
      }
      TogglePlayback();
    }

    /** Play(clip): makes the clip the one to replay, then toggles playback as Play() does.
        The source dereferences the clip before its null check, so a clip must be given. */
    method PlayClip(clip: RecordedClip)
      requires Valid() && car != null
      modifies this`recorded, this`mode, this`replayRunning, this`replayCursor, this`revelRunning,
               this`revelCursor, car`externalController, car`controls, car`position, car`rotation,
               car`linearVelocity, car`angularVelocity
      ensures Valid()
      ensures recorded == Some(clip)
      ensures PlaybackToggled()
    {
      recorded := Some(clip);
      TogglePlayback();
    }

    /** Stops recording or playback and hands the vehicle back to its own controls. */
    method Stop()
      requires Valid() && car != null
      modifies this`mode, car`externalController
      ensures Valid()
      ensures mode == Neutral && !car.externalController
    {
      mode := Neutral;
      car.externalController := false;
    }

    /** The physics step. Without a vehicle, or in Neutral, it does nothing; in Play it only
        keeps the vehicle under external control; in Record it appends one entry to each
        buffer. */
    method FixedUpdate()
      requires Valid()
      modifies this`inputs, this`transforms, this`rigidbodies, car
      ensures Valid()
      ensures car != null ==>
                && car.controls == old(car.controls)
                && car.position == old(car.position) && car.rotation == old(car.rotation)
                && car.linearVelocity == old(car.linearVelocity) && car.angularVelocity == old(car.angularVelocity)
      ensures car == null || mode == Neutral ==>
                unchanged(this) && (car != null ==> car.externalController == old(car.externalController))
      ensures car != null && mode == Mode.Play ==>
                && car.externalController
                && inputs == old(inputs) && transforms == old(transforms) && rigidbodies == old(rigidbodies)
      ensures car != null && mode == Mode.Record ==>
                && car.externalController == old(car.externalController)
                && inputs == old(inputs) + [car.controls]
                && transforms == old(transforms) + [PlayerTransform(car.position, car.rotation)]
                && rigidbodies == old(rigidbodies) + [PlayerRigidBody(car.linearVelocity, car.angularVelocity)]
    {
      if car == null {
        return;
      }
      match mode
      case Neutral =>
      case Play =>
        car.externalController := true;
      case Record =>
        inputs := inputs + [car.controls];
        transforms := transforms + [PlayerTransform(car.position, car.rotation)];
        rigidbodies := rigidbodies + [PlayerRigidBody(car.linearVelocity, car.angularVelocity)];
    }

    /** The coroutines resumed after a physics step, Replay first as it was started first.
        While playing, both apply their next entry, or playback ends; a coroutine still running
        when the mode has left Play ends too, and that sets the mode to Neutral whatever it
        was, a recording begun during playback included. */
    method ResumePlayback()
      requires Valid() && car != null
      modifies this`mode, this`replayRunning, this`replayCursor, this`revelRunning, this`revelCursor,
               car`externalController, car`controls, car`linearVelocity, car`angularVelocity
      ensures Valid()
      ensures old(mode) == Mode.Play ==>
                var c := old(replayCursor);
                var clip := recorded.value;
                if c < |clip.inputs| && c < |clip.rigids| then
                  && mode == Mode.Play && replayCursor == c + 1 && revelCursor == c + 1
                  && car.externalController && car.controls == clip.inputs[c]
                  && car.linearVelocity == clip.rigids[c].velocity
                  && car.angularVelocity == clip.rigids[c].angularVelocity
                else
                  && mode == Neutral && !car.externalController
                  && !revelRunning && revelCursor == c
                  && replayRunning == (c < |clip.inputs|)
                  && replayCursor == (if c < |clip.inputs| then c + 1 else c)
                  && car.controls == (if c < |clip.inputs| then clip.inputs[c] else old(car.controls))
                  && car.linearVelocity == old(car.linearVelocity) && car.angularVelocity == old(car.angularVelocity)
      ensures old(mode) != Mode.Play ==>
                && !replayRunning && !revelRunning
                && replayCursor == old(replayCursor) && revelCursor == old(revelCursor)
                && car.controls == old(car.controls)
                && car.linearVelocity == old(car.linearVelocity) && car.angularVelocity == old(car.angularVelocity)
                && (old(replayRunning) || old(revelRunning) ==> mode == Neutral && !car.externalController)
                && (!old(replayRunning) && !old(revelRunning) ==>
                      mode == old(mode) && car.externalController == old(car.externalController))
    {
      ReplayStep();
      RevelStep();
    }

    /** The engine's physics update between FixedUpdate and the coroutines' resumption. It
        integrates the velocities Revel wrote, and collisions and gravity change them in turn;
        the model leaves its outcome open, so the vehicle's pose and velocities may take any
        values. */
    method PhysicsStep()
      requires car != null
      modifies car`position, car`rotation, car`linearVelocity, car`angularVelocity
    {
    }

    /** The engine stepping an active playback: every fixed step runs FixedUpdate, then the
        physics update, then resumes the coroutines, until the mode leaves Play. Playback always ends, back in
        Neutral with the vehicle on its own controls; whichever of the clip's inputs and
        velocities runs out first ends it for both, and the inputs get one step more when
        the velocities are the shorter. */
    method RunPlayback()
      requires Valid() && car != null && mode == Mode.Play
      modifies this`mode, this`replayRunning, this`replayCursor, this`revelRunning, this`revelCursor,
               this`inputs, this`transforms, this`rigidbodies, car
      ensures Valid()
      ensures mode == Neutral && !car.externalController
      ensures recorded == old(recorded)
      ensures inputs == old(inputs) && transforms == old(transforms) && rigidbodies == old(rigidbodies)
      ensures old(replayCursor) <= |recorded.value.inputs| && old(replayCursor) <= |recorded.value.rigids| ==>
                && replayCursor == Min(|recorded.value.inputs|, |recorded.value.rigids| + 1)
                && revelCursor == Min(|recorded.value.inputs|, |recorded.value.rigids|)
                && replayRunning == (|recorded.value.rigids| < |recorded.value.inputs|)
                && !revelRunning
    {
      ghost var n := |recorded.value.inputs|;
      ghost var m := |recorded.value.rigids|;
      ghost var bounded := replayCursor <= n && replayCursor <= m;
      while mode == Mode.Play
        invariant Valid()
        invariant recorded == old(recorded)
        invariant inputs == old(inputs) && transforms == old(transforms) && rigidbodies == old(rigidbodies)
        invariant mode == Mode.Play || mode == Neutral
        invariant mode == Neutral ==> !car.externalController
        invariant bounded && mode == Mode.Play ==> replayCursor <= n && replayCursor <= m
        invariant bounded && mode == Neutral ==> replayCursor == Min(n, m + 1) && revelCursor == Min(n, m)
        invariant bounded && mode == Neutral ==> replayRunning == (m < n) && !revelRunning
        decreases if mode == Mode.Play then n + 1 - Min(replayCursor, n) else 0
      {
        FixedUpdate();
        PhysicsStep();
        ResumePlayback();
      }
    }
  }
}
