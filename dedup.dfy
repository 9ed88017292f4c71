/**
 * The single-slot duplicate-audio suppression seen over a run of messages.
 *
 * Messages are handled one after another, each to completion, so a run of
 * the `message` handler is the fold of Decide over the messages in arrival
 * order, threading the `lastProcessedAudio` slot.
 */
module AudioDedup {
  import opened Wrappers
  import opened MessageRouter

  /** One incoming message, as far as the router looks at it. */
  datatype Incoming = Incoming(hasMedia: bool, download: Option<Media>)

  /** The actions taken, one per message, and the slot at the end. */
  datatype Trace = Trace(actions: seq<Action>, slot: Option<string>)

  /** Handling `msgs` in order, starting from `slot`. */
  function Replay(slot: Option<string>, msgs: seq<Incoming>, hash: string -> string): (t: Trace)
    ensures |t.actions| == |msgs|
    decreases |msgs|
  {
    if msgs == [] then Trace([], slot)
    else
      var prev := Replay(slot, msgs[..|msgs| - 1], hash);
      var m := msgs[|msgs| - 1];
      var s := Decide(prev.slot, m.hasMedia, m.download, hash);
      Trace(prev.actions + [s.action], s.slot)
  }

  /** The payloads that reached the audio requester, in order. */
  function AudioCalls(actions: seq<Action>): seq<string>
    decreases |actions|
  {
    if actions == [] then []
    else
      var a := actions[|actions| - 1];
      AudioCalls(actions[..|actions| - 1])
        + (if a.CallRequester? && a.kind == Audio then [a.data] else [])
  }

  /** No two audio payloads forwarded one right after the other (other messages in between do not count) share a hash. */
  ghost predicate NoRepeatedNeighbours(calls: seq<string>, hash: string -> string)
  {
    forall i :: 0 <= i < |calls| - 1 ==> hash(calls[i]) != hash(calls[i + 1])
  }

  /** Handling one more message extends the trace by that message's action. */
  lemma ReplaySnoc(slot: Option<string>, msgs: seq<Incoming>, m: Incoming, hash: string -> string)
    ensures var prev := Replay(slot, msgs, hash); var s := Decide(prev.slot, m.hasMedia, m.download, hash);
      Replay(slot, msgs + [m], hash) == Trace(prev.actions + [s.action], s.slot)
  {
    assert (msgs + [m])[..|msgs|] == msgs;
  }

  lemma AudioCallsSnoc(actions: seq<Action>, a: Action)
    ensures AudioCalls(actions + [a])
         == AudioCalls(actions) + (if a.CallRequester? && a.kind == Audio then [a.data] else [])
  {
    assert (actions + [a])[..|actions|] == actions;
  }

  /**
   * What a run from slot `start` leaves behind, given the audio payloads it
   * forwarded: the slot holds the hash of the last of them (or is still
   * `start` if there were none), the first differs from `start`, and
   * consecutive ones never share a hash.
   */
  ghost predicate SlotInvariant(start: Option<string>, slot: Option<string>, calls: seq<string>, hash: string -> string)
  {
    && (calls == [] ==> slot == start)
    && (calls != [] ==> slot == Some(hash(calls[|calls| - 1])) && start != Some(hash(calls[0])))
    && NoRepeatedNeighbours(calls, hash)
  }

  /** One handled message keeps the invariant, given what Decide promises about the slot. */
  lemma SlotInvariantStep(start: Option<string>, slot: Option<string>, calls: seq<string>,
                          a: Action, next: Option<string>, hash: string -> string)
    requires SlotInvariant(start, slot, calls, hash)
    requires next != slot <==> a.CallRequester? && a.kind == Audio
    requires a.CallRequester? && a.kind == Audio ==> next == Some(hash(a.data))
    ensures SlotInvariant(start, next, calls + (if a.CallRequester? && a.kind == Audio then [a.data] else []), hash)
  {
    if a.CallRequester? && a.kind == Audio {
      var calls' := calls + [a.data];
      if calls != [] {
        assert calls'[|calls'| - 2] == calls[|calls| - 1];
        assert calls'[0] == calls[0];
      }
    } else {
      assert calls + [] == calls;
    }
  }

  /** The slot invariant holds after every run of the handler. */
  lemma {:induction false} ReplaySlotInvariant(start: Option<string>, msgs: seq<Incoming>, hash: string -> string)
    ensures var t := Replay(start, msgs, hash); SlotInvariant(start, t.slot, AudioCalls(t.actions), hash)
    decreases |msgs|
  {
    if msgs != [] {
      var init, m := msgs[..|msgs| - 1], msgs[|msgs| - 1];
      assert msgs == init + [m];
      ReplaySlotInvariant(start, init, hash);
      ReplaySnoc(start, init, m, hash);
      var prev := Replay(start, init, hash);
      var s := Decide(prev.slot, m.hasMedia, m.download, hash);
      AudioCallsSnoc(prev.actions, s.action);
      SlotInvariantStep(start, prev.slot, AudioCalls(prev.actions), s.action, s.slot, hash);
    }
  }

  /** An audio message the size guard lets through. */
  predicate InLimitAudio(media: Media)
  {
    StartsWith(media.mimetype, "audio/") && media.data != "" && !TooLarge(media.data)
  }

  /** One in-limit audio message: suppressed when its hash is the slot's, forwarded otherwise. */
  lemma InLimitAudioStep(slot: Option<string>, a: Media, hash: string -> string)
    requires InLimitAudio(a)
    ensures Decide(slot, true, Some(a), hash)
         == if slot == Some(hash(a.data)) then Step(Reply(AlreadyProcessed), slot)
            else Step(CallRequester(Audio, a.mimetype, a.data), Some(hash(a.data)))
  {
    ImageAndAudioExclusive(a.mimetype);
  }

  /** One downloaded image: forwarded to the image requester, slot untouched. */
  lemma ImageStep(slot: Option<string>, img: Media, hash: string -> string)
    requires StartsWith(img.mimetype, "image/") && img.data != ""
    ensures Decide(slot, true, Some(img), hash) == Step(CallRequester(Image, img.mimetype, img.data), slot)
  {
  }

  /** The same audio twice in a row: the first is forwarded (when new), the second gets the duplicate reply. */
  lemma SameAudioTwice(slot: Option<string>, a: Media, hash: string -> string)
    requires InLimitAudio(a) && slot != Some(hash(a.data))
    ensures var t := Replay(slot, [Incoming(true, Some(a)), Incoming(true, Some(a))], hash);
      t.actions == [CallRequester(Audio, a.mimetype, a.data), Reply(AlreadyProcessed)]
      && t.slot == Some(hash(a.data))
  {
    var ma := Incoming(true, Some(a));
    InLimitAudioStep(slot, a, hash);
    InLimitAudioStep(Some(hash(a.data)), a, hash);
    ReplaySnoc(slot, [], ma, hash);
    assert [] + [ma] == [ma];
    ReplaySnoc(slot, [ma], ma, hash);
    assert [ma] + [ma] == [ma, ma];
  }

  /** A, then B with another hash, then A again: all three reach the audio requester, since only the preceding hash is remembered. */
  lemma AlternatingAudioAllForwarded(slot: Option<string>, a: Media, b: Media, hash: string -> string)
    requires InLimitAudio(a) && InLimitAudio(b)
    requires hash(a.data) != hash(b.data) && slot != Some(hash(a.data))
    ensures var t := Replay(slot, [Incoming(true, Some(a)), Incoming(true, Some(b)), Incoming(true, Some(a))], hash);
      AudioCalls(t.actions) == [a.data, b.data, a.data] && t.slot == Some(hash(a.data))
  {
    var ma, mb := Incoming(true, Some(a)), Incoming(true, Some(b));
    var ca, cb := CallRequester(Audio, a.mimetype, a.data), CallRequester(Audio, b.mimetype, b.data);
    InLimitAudioStep(slot, a, hash);
    InLimitAudioStep(Some(hash(a.data)), b, hash);
    InLimitAudioStep(Some(hash(b.data)), a, hash);
    ReplaySnoc(slot, [], ma, hash);
    assert [] + [ma] == [ma];
    assert Replay(slot, [ma], hash) == Trace([ca], Some(hash(a.data)));
    ReplaySnoc(slot, [ma], mb, hash);
    assert [ma] + [mb] == [ma, mb];
    assert Replay(slot, [ma, mb], hash) == Trace([ca, cb], Some(hash(b.data)));
    ReplaySnoc(slot, [ma, mb], ma, hash);
    assert [ma, mb] + [ma] == [ma, mb, ma];
    assert Replay(slot, [ma, mb, ma], hash) == Trace([ca, cb, ca], Some(hash(a.data)));
    AudioCallsSnoc([], ca);
    AudioCallsSnoc([ca], cb);
    AudioCallsSnoc([ca, cb], ca);
  }

  /** An image between two copies of the same audio does not touch the slot: the second copy is still suppressed. */
  lemma ImageDoesNotResetSlot(slot: Option<string>, a: Media, img: Media, hash: string -> string)
    requires InLimitAudio(a) && slot != Some(hash(a.data))
    requires StartsWith(img.mimetype, "image/") && img.data != ""
    ensures var t := Replay(slot, [Incoming(true, Some(a)), Incoming(true, Some(img)), Incoming(true, Some(a))], hash);
      t.actions[2] == Reply(AlreadyProcessed) && AudioCalls(t.actions) == [a.data]
  {
    var ma, mi := Incoming(true, Some(a)), Incoming(true, Some(img));
    var ca, ci := CallRequester(Audio, a.mimetype, a.data), CallRequester(Image, img.mimetype, img.data);
    var ha := Some(hash(a.data));
    InLimitAudioStep(slot, a, hash);
    InLimitAudioStep(ha, a, hash);
    ImageStep(ha, img, hash);
    ReplaySnoc(slot, [], ma, hash);
    assert [] + [ma] == [ma];
    assert Replay(slot, [ma], hash) == Trace([ca], ha);
    ReplaySnoc(slot, [ma], mi, hash);
    assert [ma] + [mi] == [ma, mi];
    assert Replay(slot, [ma, mi], hash) == Trace([ca, ci], ha);
    ReplaySnoc(slot, [ma, mi], ma, hash);
    assert [ma, mi] + [ma] == [ma, mi, ma];
    assert Replay(slot, [ma, mi, ma], hash) == Trace([ca, ci, Reply(AlreadyProcessed)], ha);
    AudioCallsSnoc([], ca);
    AudioCallsSnoc([ca], ci);
    AudioCallsSnoc([ca, ci], Reply(AlreadyProcessed));
  }
}
