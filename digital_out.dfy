/**
 * `DigitalOutChannelControllerImpl`: one state queue per digital output
 * channel, filled at construction with the channel's state and afterwards
 * by a per-channel updater that publishes each change; commands address a
 * channel by the index carried in the call's metadata.
 */
module DigitalOut {
  import opened Common
  import opened Streams
  import Queues

  /** `"On" if is_on else "Off"` */
  function StateLabel(on: bool): (r: string)
    ensures r == "On" <==> on
    ensures r == "On" || r == "Off"
  {
    if on then "On" else "Off"
  }

  function StateLabels(states: seq<bool>): (r: seq<string>)
    ensures |r| == |states| && forall k :: 0 <= k < |states| ==> r[k] == StateLabel(states[k])
  {
    seq(|states|, k requires 0 <= k < |states| => StateLabel(states[k]))
  }

  /** A `qmixdigio.DigitalOutChannel`: its output state and the writes it received. */
  class DigitalOutChannel {
    /** `is_output_on()` */
    var on: bool
    /** Every `write_on` argument so far, oldest first. */
    var writes: seq<bool>

    constructor (on: bool)
      ensures this.on == on && writes == []
    {
      this.on := on;
      writes := [];
    }

    /** `write_on(on)` */
    method WriteOn(on: bool)
      modifies this
      ensures this.on == on && writes == old(writes) + [on]
    {
      this.on := on;
      writes := writes + [on];
    }
  }

  /** Errors a channel-addressed call raises. */
  datatype ChannelError =
    | MissingChannelIndex        // `metadata.pop` raised `KeyError`
    | InvalidChannelIndex(index: int)

  /** Python list indexing: `-n <= i < n` is valid, a negative index counts from the end. */
  function ListIndex(i: int, n: nat): (r: Option<nat>)
    ensures r.Some? <==> -(n as int) <= i < n
    ensures r.Some? ==> r.value < n && r.value == (if i < 0 then n + i else i)
  {
    if 0 <= i < n then Some(i) else if -(n as int) <= i < 0 then Some(n + i) else None
  }

  /** Two distinct queues never alias: each channel has its own. */
  ghost predicate DistinctQueues(queues: seq<Queues.Queue<string>>)
  {
    forall i, j :: 0 <= i < j < |queues| ==> queues[i] != queues[j]
  }

  class DigitalOutController {
    const channels: seq<DigitalOutChannel>
    /** `__channel_index_identifier`, the metadata key of the channel index. */
    const channelIndexIdentifier: string
    /** `__state_queues`: same number of items and order as `channels`. */
    var stateQueues: seq<Queues.Queue<string>>
    /** `__stop_event` */
    var stopped: bool

    ghost predicate Valid()
      reads this
    {
      |stateQueues| == |channels| && DistinctQueues(stateQueues)
    }

    /** `__init__`: one fresh queue per channel, each holding that channel's state. */
    constructor (channels: seq<DigitalOutChannel>, channelIndexIdentifier: string)
      ensures this.channels == channels && this.channelIndexIdentifier == channelIndexIdentifier
      ensures Valid() && !stopped
      ensures forall i :: 0 <= i < |channels| ==> fresh(stateQueues[i]) && stateQueues[i].items == [StateLabel(channels[i].on)]
    {
      this.channels := channels;
      this.channelIndexIdentifier := channelIndexIdentifier;
      var queues: seq<Queues.Queue<string>> := [];
      var i := 0;
      while i < |channels|
        invariant 0 <= i <= |channels| && |queues| == i && DistinctQueues(queues)
        invariant forall k :: 0 <= k < i ==> fresh(queues[k]) && queues[k].items == [StateLabel(channels[k].on)]
      {
        var q := new Queues.Queue<string>();
        q.Put(StateLabel(channels[i].on));
        queues := queues + [q];
        i := i + 1;
      }
      stateQueues := queues;
      stopped := false;
    }

    /** `get_NumberOfChannels` */
    method NumberOfChannels() returns (n: nat)
      ensures n == |channels|
    {
      n := |channels|;
    }

    /**
     * `State_on_subscription`: pops the channel index from the metadata and
     * returns that channel's queue; `rest` is the metadata afterwards.
     */
    method StateOnSubscription(metadata: map<string, int>) returns (r: Result<Queues.Queue<string>, ChannelError>, rest: map<string, int>)
      requires Valid()
      ensures channelIndexIdentifier !in metadata ==> r == Failure(MissingChannelIndex) && rest == metadata
      ensures channelIndexIdentifier in metadata ==> rest == metadata - {channelIndexIdentifier}
      ensures channelIndexIdentifier in metadata ==>
                var index := metadata[channelIndexIdentifier];
                match ListIndex(index, |channels|)
                case Some(k) => r == Success(stateQueues[k])
                case None => r == Failure(InvalidChannelIndex(index))
    {
      if channelIndexIdentifier !in metadata {
        return Failure(MissingChannelIndex), metadata;
      }
      var index := metadata[channelIndexIdentifier];
      rest := metadata - {channelIndexIdentifier};
      var k := ListIndex(index, |stateQueues|);
      if k.None? {
        return Failure(InvalidChannelIndex(index)), rest;
      }
      r := Success(stateQueues[k.value]);
    }

    /** `SetOutput`: `write_on(State == "On")` on the addressed channel, and on no other. */
    method SetOutput(state: string, metadata: map<string, int>) returns (r: Result<(), ChannelError>, rest: map<string, int>)
      modifies set c | c in channels
      ensures channelIndexIdentifier !in metadata ==> r == Failure(MissingChannelIndex) && rest == metadata
      ensures channelIndexIdentifier in metadata ==> rest == metadata - {channelIndexIdentifier}
      ensures r.Success? <==> channelIndexIdentifier in metadata && ListIndex(metadata[channelIndexIdentifier], |channels|).Some?
      ensures r.Success? ==>
                var c := channels[ListIndex(metadata[channelIndexIdentifier], |channels|).value];
                c.on == (state == "On") && c.writes == old(c.writes) + [state == "On"]
                && forall d :: d in channels && d != c ==> d.on == old(d.on) && d.writes == old(d.writes)
      ensures r.Failure? ==> forall d :: d in channels ==> d.on == old(d.on) && d.writes == old(d.writes)
      ensures channelIndexIdentifier in metadata && r.Failure? ==> r == Failure(InvalidChannelIndex(metadata[channelIndexIdentifier]))
    {
      if channelIndexIdentifier !in metadata {
        return Failure(MissingChannelIndex), metadata;
      }
      var index := metadata[channelIndexIdentifier];
      rest := metadata - {channelIndexIdentifier};
      var k := ListIndex(index, |channels|);
      if k.None? {
        return Failure(InvalidChannelIndex(index)), rest;
      }
      channels[k.value].WriteOn(state == "On");
      r := Success(());
    }

    /**
     * The state updater of channel `i`: reads the channel once, then at each
     * tick before `stop` re-reads it while operational and puts the new
     * label on the channel's own queue whenever the state changed.
     */
    method RunStateUpdater(i: nat, ticks: seq<Tick<bool>>)
      requires Valid() && i < |channels|
      modifies stateQueues[i]
      ensures stateQueues[i].items == old(stateQueues[i].items) + StateLabels(BoolChanges(ticks, Watch(old(channels[i].on), old(channels[i].on))))
      ensures forall j :: 0 <= j < |stateQueues| && j != i ==> stateQueues[j].items == old(stateQueues[j].items)
    {
      var queue := stateQueues[i];
      var isOn := channels[i].on;
      var newIsOn := isOn;
      ghost var changes := BoolChanges(ticks, Watch(isOn, isOn));
      ghost var emitted: seq<bool> := [];
      var k := 0;
      assert ticks[0..] == ticks;
      while k < |ticks|
        invariant queue.items == old(queue.items) + StateLabels(emitted)
        invariant BoolResumes(ticks, k, Watch(newIsOn, isOn), changes, emitted)
        invariant forall j :: 0 <= j < |stateQueues| && j != i ==> stateQueues[j].items == old(stateQueues[j].items)
      {
        BoolResumesStep(ticks, k, Watch(newIsOn, isOn), changes, emitted);
        if ticks[k].operational {
          newIsOn := ticks[k].reading;
        }
        if newIsOn != isOn {
          isOn := newIsOn;
          queue.Put(StateLabel(isOn));
          assert StateLabels(emitted + [isOn]) == StateLabels(emitted) + [StateLabel(isOn)];
          emitted := emitted + [isOn];
        }
        k := k + 1;
      }
      BoolResumesEnd(ticks, Watch(newIsOn, isOn), changes, emitted);
    }

    /** `stop`: sets the stop event that ends every updater. */
    method Stop()
      modifies this`stopped
      ensures stopped
    {
      stopped := true;
    }
  }

  /** An updater never puts the same label twice in a row, and its first label differs from the constructor's. */
  lemma UpdaterPublishesChangesOnly(initial: bool, ticks: seq<Tick<bool>>)
    ensures var out := BoolChanges(ticks, Watch(initial, initial));
            (out != [] ==> out[0] != initial)
            && forall k :: 0 < k < |out| ==> out[k] != out[k - 1]
  {
    var out := BoolChanges(ticks, Watch(initial, initial));
    BoolChangesIsDedup(ticks, initial, initial);
    DedupAlternates(HeldReadings(ticks, initial), initial);
    forall k | 0 < k < |out|
      ensures out[k] != out[k - 1]
    {
      assert (k % 2 == 0) != ((k - 1) % 2 == 0);
    }
  }

  /** A degraded tick changes nothing, so an updater that only sees degraded ticks publishes nothing. */
  lemma {:induction false} DegradedUpdaterIsQuiet(initial: bool, ticks: seq<Tick<bool>>)
    requires forall k :: 0 <= k < |ticks| ==> !ticks[k].operational
    ensures BoolChanges(ticks, Watch(initial, initial)) == []
    decreases |ticks|
  {
    if ticks != [] {
      DegradedUpdaterIsQuiet(initial, ticks[1..]);
    }
  }
}
