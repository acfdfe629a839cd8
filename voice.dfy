/** The single-session voice controller of voice.py. The active client is the first entry
    of the bot's voice client list; a connection is opened only when there is none, playback
    is stopped before a new source is played, and a channel is cleared of every member
    except the bot itself. There is no lock: each coroutine is one sequential method. */
module Voice {
  import opened Common

  /** A voice channel and the ids of the members currently in it. */
  datatype VoiceChannel = VoiceChannel(id: int, members: seq<int>)

  /** A voice client: the channel it is attached to and its two state flags. */
  datatype VoiceClient = VoiceClient(channel: VoiceChannel, connected: bool, playing: bool)

  /** The platform calls the controller makes, in order. */
  datatype VoiceCall =
    | ConnectTo(channelId: int)
    | Stop
    | Play(source: string, executable: string)
    | DisconnectFrom(channelId: int)
    | MoveOut(memberId: int)

  /** The `move_to(None)` calls `remove_all_members` makes for a member list, in list order. */
  function EvictionCalls(members: seq<int>, botId: int): seq<VoiceCall> {
    if members == [] then []
    else
      var last := members[|members| - 1];
      EvictionCalls(members[..|members| - 1], botId) + (if last != botId then [MoveOut(last)] else [])
  }

  /** Every member except the bot is moved out, the bot never is, nothing but moves is
      issued, and there are never more moves than members. */
  lemma {:induction false} EvictionCallsSpec(members: seq<int>, botId: int)
    ensures MoveOut(botId) !in EvictionCalls(members, botId)
    ensures forall m :: MoveOut(m) in EvictionCalls(members, botId) <==> m in members && m != botId
    ensures forall c :: c in EvictionCalls(members, botId) ==> c.MoveOut?
    ensures |EvictionCalls(members, botId)| <= |members|
  {
    if members != [] {
      var init := members[..|members| - 1];
      EvictionCallsSpec(init, botId);
      assert members == init + [members[|members| - 1]];
    }
  }

  /** The moves follow the member list: the calls for a list are the calls for any split of
      it, one part after the other. */
  lemma {:induction false} EvictionCallsAppend(a: seq<int>, b: seq<int>, botId: int)
    ensures EvictionCalls(a + b, botId) == EvictionCalls(a, botId) + EvictionCalls(b, botId)
    decreases |b|
  {
    if b == [] {
      assert a + b == a;
    } else {
      var init := b[..|b| - 1];
      assert (a + b)[..|a + b| - 1] == a + init;
      EvictionCallsAppend(a, init, botId);
    }
  }

  /** A channel holding only the bot produces no move. */
  lemma {:induction false} OnlyBotStays(members: seq<int>, botId: int)
    requires forall i :: 0 <= i < |members| ==> members[i] == botId
    ensures EvictionCalls(members, botId) == []
  {
    if members != [] {
      OnlyBotStays(members[..|members| - 1], botId);
    }
  }

  class VoiceController {
    const botUserId: int
    const ffmpegPath: string
    /** `bot.voice_clients`, in platform order. */
    var voiceClients: seq<VoiceClient>
    /** Every platform call made so far. */
    var calls: seq<VoiceCall>

    /** `VoiceController(bot, ffmpeg_path)`. */
    constructor (botUserId: int, ffmpegPath: string, voiceClients: seq<VoiceClient>)
      ensures this.botUserId == botUserId && this.ffmpegPath == ffmpegPath
      ensures this.voiceClients == voiceClients && calls == []
    {
      this.botUserId := botUserId;
      this.ffmpegPath := ffmpegPath;
      this.voiceClients := voiceClients;
      calls := [];
    }

    /** The active client: the first voice client, none when the list is empty. */
    function ActiveClient(): (r: Option<VoiceClient>)
      reads this
      ensures r.Some? <==> |voiceClients| > 0
      ensures r.Some? ==> r.value == voiceClients[0]
    {
      if |voiceClients| > 0 then Some(voiceClients[0]) else None
    }

    /** There is an active client and it is connected. */
    predicate Connected()
      reads this
    {
      ActiveClient().Some? && ActiveClient().value.connected
    }

    /** `play_audio(source)`: with a connected active client, stops what it is playing and
        plays `source` through the configured executable; otherwise does nothing. */
    method PlayAudio(source: string)
      modifies this`voiceClients, this`calls
      ensures !old(Connected()) ==> voiceClients == old(voiceClients) && calls == old(calls)
      ensures old(Connected()) ==>
        voiceClients == old(voiceClients)[0 := old(voiceClients)[0].(playing := true)] &&
        calls == old(calls) + (if old(voiceClients)[0].playing then [Stop] else []) + [Play(source, ffmpegPath)]
    {
      var voiceClient := ActiveClient();
      if voiceClient.Some? && voiceClient.value.connected {
        var c := voiceClient.value;
        if c.playing {
          c := c.(playing := false);
          calls := calls + [Stop];
        }
        c := c.(playing := true);
        calls := calls + [Play(source, ffmpegPath)];
        voiceClients := voiceClients[0 := c];
      }
    }

    /** `connect(voice_channel)`: opens a connection only for a given channel and only when
        there is no voice client yet; the new client becomes the active one. `linkUp` and
        `playingOnArrival` stand for the new client's flags as the platform reports them; a
        connected client that is playing is stopped. */
    method Connect(voiceChannel: Option<VoiceChannel>, linkUp: bool, playingOnArrival: bool)
      modifies this`voiceClients, this`calls
      ensures voiceChannel.None? || |old(voiceClients)| > 0 ==>
        voiceClients == old(voiceClients) && calls == old(calls)
      ensures voiceChannel.Some? && |old(voiceClients)| == 0 ==>
        voiceClients == [VoiceClient(voiceChannel.value, linkUp, playingOnArrival && !linkUp)] &&
        calls == old(calls) + [ConnectTo(voiceChannel.value.id)] + (if linkUp && playingOnArrival then [Stop] else [])
    {
      var voiceClient := ActiveClient();
      if voiceChannel.Some? && voiceClient.None? {
        var c := VoiceClient(voiceChannel.value, linkUp, playingOnArrival);
        calls := calls + [ConnectTo(voiceChannel.value.id)];
        if c.connected && c.playing {
          c := c.(playing := false);
          calls := calls + [Stop];
        }
        voiceClients := voiceClients + [c];
      }
    }

    /** `disconnect`: disconnects the active client when it is connected, which removes it
        from the list; otherwise does nothing and does not raise. */
    method Disconnect()
      modifies this`voiceClients, this`calls
      ensures !old(Connected()) ==> voiceClients == old(voiceClients) && calls == old(calls)
      ensures old(Connected()) ==>
        voiceClients == old(voiceClients)[1..] &&
        calls == old(calls) + [DisconnectFrom(old(voiceClients)[0].channel.id)]
    {
      var voiceClient := ActiveClient();
      if voiceClient.Some? && voiceClient.value.connected {
        calls := calls + [DisconnectFrom(voiceClient.value.channel.id)];
        voiceClients := voiceClients[1..];
      }
    }

    /** `get_members`: the members of the active client's channel when it is connected,
        and no one otherwise. */
    method GetMembers() returns (members: seq<int>)
      ensures Connected() ==> members == voiceClients[0].channel.members
      ensures !Connected() ==> members == []
    {
      var voiceClient := ActiveClient();
      if voiceClient.Some? && voiceClient.value.connected {
        return voiceClient.value.channel.members;
      }
      return [];
    }

    /** `remove_all_members`: with a connected active client, moves out every member of its
        channel except the bot, in member order; otherwise does nothing. */
    method RemoveAllMembers()
      modifies this`calls
      ensures !Connected() ==> calls == old(calls)
      ensures Connected() ==> calls == old(calls) + EvictionCalls(voiceClients[0].channel.members, botUserId)
    {
      var voiceClient := ActiveClient();
      if voiceClient.Some? && voiceClient.value.connected {
        var members := voiceClient.value.channel.members;
        for i := 0 to |members|
          invariant calls == old(calls) + EvictionCalls(members[..i], botUserId)
        {
          assert members[..i + 1][..i] == members[..i];
          if members[i] != botUserId {
            calls := calls + [MoveOut(members[i])];
          }
        }
        assert members[..|members|] == members;
      }
    }
  }

  /** A second `connect` while a session exists is a no-op: the controller stays on the
      first channel. */
  method ConnectThenConnect(botUserId: int, ffmpegPath: string, a: VoiceChannel, b: VoiceChannel)
    returns (vc: VoiceController)
    ensures |vc.voiceClients| == 1 && vc.voiceClients[0].channel == a
    ensures vc.calls == [ConnectTo(a.id)]
  {
    vc := new VoiceController(botUserId, ffmpegPath, []);
    vc.Connect(Some(a), true, false);
    vc.Connect(Some(b), true, false);
  }

  /** Playing twice on one session stops the first playback before the second starts. */
  method PlayTwice(vc: VoiceController, first: string, second: string)
    requires vc.Connected()
    modifies vc
    ensures |vc.calls| >= |old(vc.calls)| && vc.calls[|old(vc.calls)|..] ==
      (if old(vc.voiceClients)[0].playing then [Stop] else []) +
      [Play(first, vc.ffmpegPath), Stop, Play(second, vc.ffmpegPath)]
  {
    vc.PlayAudio(first);
    vc.PlayAudio(second);
  }
}
