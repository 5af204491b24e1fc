/** Keyboard: the per-frame keyboard state. A State is a bit set with one bit
    per Key; a Keyboard keeps the State of the current frame and of the frame
    before it, and answers edge queries (pressed, released, held) by comparing
    the two. */
module KeyboardInput {
  import opened KeyboardKeys

  /** The bits of a State in which every key is up. */
  function AllUp(): (bits: seq<bool>)
    ensures |bits| == KeySetSize
    ensures forall i | 0 <= i < |bits| :: !bits[i]
  {
    seq(KeySetSize, _ => false)
  }

  /** Whether every frame in frames has one bit per Key. */
  predicate AllFrames(frames: seq<seq<bool>>) {
    forall t | 0 <= t < |frames| :: |frames[t]| == KeySetSize
  }

  /** The abstract value of a Keyboard: the bits of its current State and of its
      previous State. The queries below are the specification that the
      Keyboard class implements. */
  datatype Snapshots = Snapshots(current: seq<bool>, previous: seq<bool>) {

    predicate Valid() {
      |current| == KeySetSize && |previous| == KeySetSize
    }

    predicate Down(key: Key)
      requires Valid() && InKeySet(key)
    {
      current[key as int]
    }

    /** Down now and up in the frame before: the rising edge. */
    predicate Pressed(key: Key)
      requires Valid() && InKeySet(key)
    {
      current[key as int] && !previous[key as int]
    }

    /** Up now and down in the frame before: the falling edge. */
    predicate Released(key: Key)
      requires Valid() && InKeySet(key)
    {
      !current[key as int] && previous[key as int]
    }

    /** Down in both frames. */
    predicate Held(key: Key)
      requires Valid() && InKeySet(key)
    {
      current[key as int] && previous[key as int]
    }

    /** The snapshots after a frame boundary at which state is installed:
        the current bits become the previous ones. */
    function Updated(state: seq<bool>): Snapshots
      requires Valid() && |state| == KeySetSize
    {
      Snapshots(state, current)
    }
  }

  /** The snapshots of a Keyboard after Reset: every key up in both frames. */
  function Quiet(): Snapshots {
    Snapshots(AllUp(), AllUp())
  }

  /** Pressed, released and held exclude one another; a key that is down
      was either pressed at this boundary or held across it, and a key that
      was down in the previous frame was either released or held. */
  lemma EdgesPartition(f: Snapshots, key: Key)
    requires f.Valid() && InKeySet(key)
    ensures !(f.Pressed(key) && f.Released(key))
    ensures !(f.Pressed(key) && f.Held(key))
    ensures !(f.Released(key) && f.Held(key))
    ensures f.Down(key) <==> f.Pressed(key) || f.Held(key)
    ensures f.previous[key as int] <==> f.Released(key) || f.Held(key)
  {
  }

  /** The edges seen just after an update: a key set in the new state is down;
      it is pressed if it was up before and held if it was down before; a key
      cleared in the new state is released exactly when it was down before. */
  lemma UpdatedEdges(f: Snapshots, state: seq<bool>, key: Key)
    requires f.Valid() && |state| == KeySetSize && InKeySet(key)
    ensures f.Updated(state).Valid()
    ensures f.Updated(state).Down(key) == state[key as int]
    ensures f.Updated(state).Pressed(key) == (state[key as int] && !f.Down(key))
    ensures f.Updated(state).Held(key) == (state[key as int] && f.Down(key))
    ensures f.Updated(state).Released(key) == (!state[key as int] && f.Down(key))
  {
  }

  /** The snapshots after a Reset followed by one update per element of frames. */
  function Replay(frames: seq<seq<bool>>): (f: Snapshots)
    requires AllFrames(frames)
    ensures f.Valid()
  {
    if frames == [] then Quiet()
    else Replay(frames[..|frames| - 1]).Updated(frames[|frames| - 1])
  }

  /** Edges are taken strictly across frame boundaries: after any run of
      updates, the current bits are those of the last frame installed and the
      previous bits those of the frame before it (all up when there is none). */
  lemma {:induction false} ReplayLastTwo(frames: seq<seq<bool>>)
    requires AllFrames(frames)
    ensures Replay(frames).current == if |frames| >= 1 then frames[|frames| - 1] else AllUp()
    ensures Replay(frames).previous == if |frames| >= 2 then frames[|frames| - 2] else AllUp()
  {
    if frames != [] {
      ReplayLastTwo(frames[..|frames| - 1]);
    }
  }

  /** How many of the updates in frames made key pressed. */
  function Presses(frames: seq<seq<bool>>, key: Key): nat
    requires AllFrames(frames) && InKeySet(key)
  {
    if frames == [] then 0
    else Presses(frames[..|frames| - 1], key) + (if Replay(frames).Pressed(key) then 1 else 0)
  }

  /** How many of the updates in frames made key released. */
  function Releases(frames: seq<seq<bool>>, key: Key): nat
    requires AllFrames(frames) && InKeySet(key)
  {
    if frames == [] then 0
    else Releases(frames[..|frames| - 1], key) + (if Replay(frames).Released(key) then 1 else 0)
  }

  /** Presses and releases of a key alternate, starting from the reset: every
      release answers an earlier press, and there is one press more than
      releases exactly while the key is down. */
  lemma {:induction false} PressesBalanceReleases(frames: seq<seq<bool>>, key: Key)
    requires AllFrames(frames) && InKeySet(key)
    ensures Presses(frames, key) == Releases(frames, key) + (if Replay(frames).Down(key) then 1 else 0)
  {
    if frames != [] {
      PressesBalanceReleases(frames[..|frames| - 1], key);
    }
  }

  /** Keyboard::State: whether each key is down at a single moment. */
  class State {
    static const Up: bool := false
    static const Down: bool := true

    /** mKeys, the KeySet: one bit per Key value. */
    const keys: array<bool>

    ghost predicate Valid() {
      keys.Length == KeySetSize
    }

    function Bits(): seq<bool>
      reads keys
    {
      keys[..]
    }

    /** A default-constructed State has every bit clear. */
    constructor ()
      ensures Valid() && fresh(keys)
      ensures Bits() == AllUp()
    {
      keys := new bool[KeySetSize](_ => Up);
    }

    /** The const operator[](Key): whether key is down. It reads the same bit
        as the size_t overload given the key's value. */
    function Get(key: Key): (down: bool)
      requires Valid() && InKeySet(key)
      reads keys
      ensures down == Bits()[key as int]
      ensures down == GetAt(key as nat)
    {
      keys[key as int]
    }

    /** The const operator[](size_t): whether the key with value index is down. */
    function GetAt(index: nat): (down: bool)
      requires Valid() && index < KeySetSize
      reads keys
      ensures down == Bits()[index]
    {
      keys[index]
    }

    /** Assignment through the reference returned by operator[](Key): the bit
        of key takes the value down and every other bit is unchanged. */
    method Set(key: Key, down: bool)
      requires Valid() && InKeySet(key)
      modifies keys
      ensures Bits() == old(Bits())[key as int := down]
      ensures Get(key) == down
      ensures forall i | 0 <= i < KeySetSize && i != key as int :: GetAt(i) == old(GetAt(i))
    {
      keys[key as int] := down;
    }

    /** Assignment through the reference returned by operator[](size_t). */
    method SetAt(index: nat, down: bool)
      requires Valid() && index < KeySetSize
      modifies keys
      ensures Bits() == old(Bits())[index := down]
      ensures GetAt(index) == down
      ensures forall i | 0 <= i < KeySetSize && i != index :: GetAt(i) == old(GetAt(i))
    {
      keys[index] := down;
    }

    /** reset(): every key up. */
    method Reset()
      requires Valid()
      modifies keys
      ensures Bits() == AllUp()
      ensures forall i | 0 <= i < KeySetSize :: GetAt(i) == Up
    {
      forall i | 0 <= i < keys.Length {
        keys[i] := Up;
      }
    }

    /** Copy assignment: this State takes the bits of other. */
    method CopyFrom(other: State)
      requires Valid() && other.Valid()
      modifies keys
      ensures Bits() == old(other.Bits())
    {
      forall i | 0 <= i < keys.Length {
        keys[i] := other.keys[i];
      }
    }
  }

  /** Enumerators that share a value share a bit: whatever is written through
      one of them is read through the others. */
  lemma AliasesShareOneBit(state: State)
    requires state.Valid()
    ensures state.Get(IMEKanaMode) == state.Get(IMEHanguelMode) == state.Get(IMEHangulMode)
    ensures state.Get(IMEHanjaMode) == state.Get(IMEKanjiMode)
    ensures state.Get(X) == state.Get(LeftWindow)
  {
  }

  /** Keyboard: the States of the current and of the previous frame. */
  class Keyboard {
    /** mCurrent */
    const current: State
    /** mPrevious */
    const previous: State

    ghost predicate Valid() {
      current.Valid() && previous.Valid() && current.keys != previous.keys
    }

    function View(): (f: Snapshots)
      requires Valid()
      reads current.keys, previous.keys
      ensures f.Valid()
    {
      Snapshots(current.Bits(), previous.Bits())
    }

    /** A new Keyboard has every key up in both frames. */
    constructor ()
      ensures Valid() && fresh(current.keys) && fresh(previous.keys)
      ensures View() == Quiet()
    {
      current := new State();
      previous := new State();
    }

    /** up(key): the key is up in the current frame; the previous frame is not read. */
    function Up(key: Key): (up: bool)
      requires Valid() && InKeySet(key)
      reads current.keys
      ensures up == !Down(key)
    {
      current.Get(key) == State.Up
    }

    /** down(key): the key is down in the current frame; the previous frame is not read. */
    function Down(key: Key): (down: bool)
      requires Valid() && InKeySet(key)
      reads current.keys
      ensures down == View().Down(key)
    {
      current.Get(key) == State.Down
    }

    /** held(key): down in the current frame and in the previous one. */
    function Held(key: Key): (held: bool)
      requires Valid() && InKeySet(key)
      reads current.keys, previous.keys
      ensures held == View().Held(key)
    {
      current.Get(key) == State.Down && previous.Get(key) == State.Down
    }

    /** pressed(key): down in the current frame and up in the previous one. */
    function Pressed(key: Key): (pressed: bool)
      requires Valid() && InKeySet(key)
      reads current.keys, previous.keys
      ensures pressed == View().Pressed(key)
    {
      current.Get(key) == State.Down && previous.Get(key) == State.Up
    }

    /** released(key): up in the current frame and down in the previous one. */
    function Released(key: Key): (released: bool)
      requires Valid() && InKeySet(key)
      reads current.keys, previous.keys
      ensures released == View().Released(key)
    {
      current.Get(key) == State.Up && previous.Get(key) == State.Down
    }

    /** reset(): both frames cleared, so no key reads as down or as an edge. */
    method Reset()
      requires Valid()
      modifies current.keys, previous.keys
      ensures View() == Quiet()
      ensures forall key | InKeySet(key) :: Up(key) && !Pressed(key) && !Released(key) && !Held(key)
    {
      current.Reset();
      previous.Reset();
    }

    /** update(state): the frame boundary. The current State is copied into the
        previous one, then state is copied into the current one. If state is
        the previous State itself, its bits have been overwritten by the first
        copy before the second one reads them. */
    method Update(state: State)
      requires Valid() && state.Valid()
      modifies current.keys, previous.keys
      ensures previous.Bits() == old(current.Bits())
      ensures state.keys != previous.keys ==> current.Bits() == old(state.Bits())
      ensures state.keys == previous.keys ==> current.Bits() == old(current.Bits())
      ensures state.keys != previous.keys ==> View() == old(View()).Updated(old(state.Bits()))
      ensures state.keys == previous.keys ==> View() == Snapshots(old(current.Bits()), old(current.Bits()))
    {
      previous.CopyFrom(current);
      current.CopyFrom(state);
    }
  }

  /** Three frames with key down, down, then up: the first boundary presses it,
      the second holds it, the third releases it. */
  method PressHoldRelease(key: Key)
      returns (firstPressed: bool, firstHeld: bool, secondPressed: bool, secondHeld: bool,
               thirdReleased: bool, thirdUp: bool)
    requires InKeySet(key)
    ensures firstPressed && !firstHeld
    ensures !secondPressed && secondHeld
    ensures thirdReleased && thirdUp
  {
    var keyboard := new Keyboard();
    var frame := new State();
    frame.Set(key, State.Down);
    keyboard.Update(frame);
    firstPressed, firstHeld := keyboard.Pressed(key), keyboard.Held(key);
    keyboard.Update(frame);
    secondPressed, secondHeld := keyboard.Pressed(key), keyboard.Held(key);
    frame.Reset();
    keyboard.Update(frame);
    thirdReleased, thirdUp := keyboard.Released(key), keyboard.Up(key);
  }

  /** A new Keyboard driven by one update per State in frames, as the owning
      input aggregator drives it once per polling cycle. Its snapshots are then
      those that Replay gives for the frames' bits, so ReplayLastTwo and
      PressesBalanceReleases hold of it. */
  method Run(frames: seq<State>, ghost bits: seq<seq<bool>>) returns (keyboard: Keyboard)
    requires |frames| == |bits| && AllFrames(bits)
    requires forall t | 0 <= t < |frames| :: frames[t].Valid() && frames[t].Bits() == bits[t]
    ensures keyboard.Valid() && keyboard.View() == Replay(bits)
  {
    keyboard := new Keyboard();
    var i := 0;
    while i < |frames|
      invariant 0 <= i <= |frames|
      invariant keyboard.Valid() && fresh(keyboard.current.keys) && fresh(keyboard.previous.keys)
      invariant forall t | 0 <= t < |frames| :: frames[t].Bits() == bits[t]
      invariant keyboard.View() == Replay(bits[..i])
    {
      assert bits[..i + 1][..i] == bits[..i];
      keyboard.Update(frames[i]);
      i := i + 1;
    }
    assert bits[..i] == bits;
  }
}
