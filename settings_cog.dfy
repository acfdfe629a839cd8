/** The settings commands of settings_cog.py: `channel` sets the invoking guild's main
    channel from exactly one channel mention, and `voice_channel` sets its voice channel from
    an exact, case-sensitive channel name. Each invocation sends exactly one message. */
module SettingsCog {
  import opened Common
  import opened Decimal
  import FileGuild
  import FrameworkBot

  const CHANNEL_FOOTER := "channel"
  const VOICE_FOOTER := "voice_channel"
  const MENTION_ERROR := "Mencione um canal com #canal!"
  const VOICE_NAME_ERROR := "Especifique o nome do canal de voz!"
  const VOICE_NOT_FOUND := "Canal não encontrado!"

  /** The position of the last channel named `name`. The source's loop does not stop at the
      first match, so every match is applied and the last one is the one that stays. */
  function LastMatch(channels: seq<Channel>, name: string): (r: Option<nat>)
    ensures r.Some? ==> r.value < |channels| && channels[r.value].name == name
    ensures r.Some? ==> forall j :: r.value < j < |channels| ==> channels[j].name != name
    ensures r.None? <==> forall j :: 0 <= j < |channels| ==> channels[j].name != name
  {
    if channels == [] then None
    else if channels[|channels| - 1].name == name then Some(|channels| - 1)
    else LastMatch(channels[..|channels| - 1], name)
  }

  /** One more channel moves the last match to it when its name matches, and leaves it
      otherwise. */
  lemma LastMatchStep(channels: seq<Channel>, name: string, i: nat)
    requires i < |channels|
    ensures channels[i].name == name ==> LastMatch(channels[..i + 1], name) == Some(i)
    ensures channels[i].name != name ==> LastMatch(channels[..i + 1], name) == LastMatch(channels[..i], name)
  {
    assert channels[..i + 1][..i] == channels[..i];
  }

  /** Of several channels with the requested name, the later one is chosen. */
  lemma LaterMatchWins(channels: seq<Channel>, name: string, i: nat, j: nat)
    requires i < j < |channels| && channels[i].name == name && channels[j].name == name
    ensures LastMatch(channels, name).Some? && LastMatch(channels, name).value != i
  {
  }

  /** The guild object a command invoked from `ctx` acts on, when it is registered. */
  function TargetGuild(bot: FrameworkBot.Bot, ctx: Context): set<FileGuild.Guild>
    reads bot
  {
    if ctx.guild.Some? && IntToString(ctx.guild.value.id) in bot.customGuilds
    then {bot.customGuilds[IntToString(ctx.guild.value.id)]} else {}
  }

  /** `channel_update(ctx)`. With any number of mentions other than one it only sends the
      error. Otherwise it updates the invoking guild's main channel id to the mentioned
      channel's and confirms it; the source raises when the command comes from outside a
      guild, or from a guild that is not registered. */
  method ChannelUpdate(bot: FrameworkBot.Bot, ctx: Context, p: Platform) returns (sent: seq<Message>)
    requires |ctx.channelMentions| == 1 ==>
      ctx.guild.Some? && IntToString(ctx.guild.value.id) in bot.customGuilds &&
      FileGuild.MAIN_CHANNEL_KEY in bot.customGuilds[IntToString(ctx.guild.value.id)].settings
    modifies TargetGuild(bot, ctx)
    ensures |sent| == 1
    ensures |ctx.channelMentions| != 1 ==> sent == [Error(MENTION_ERROR, CHANNEL_FOOTER)]
    ensures |ctx.channelMentions| != 1 ==> unchanged(TargetGuild(bot, ctx))
    ensures |ctx.channelMentions| == 1 ==>
      var g := bot.customGuilds[IntToString(ctx.guild.value.id)];
      && g.mainChannelId == ctx.channelMentions[0].id
      && g.voiceChannelId == old(g.voiceChannelId) && g.settings == old(g.settings)
      && g.mainChannel == GetChannelByValue(p, g.settings[FileGuild.MAIN_CHANNEL_KEY])
      && sent == [Info("Canal redefinido", "Novo canal de textos: " + ctx.channelMentions[0].name, CHANNEL_FOOTER)]
  {
    if |ctx.channelMentions| != 1 {
      return [Error(MENTION_ERROR, CHANNEL_FOOTER)];
    }
    var g := bot.GetCustomGuild(ctx.guild.value.id).value;
    g.UpdateMainChannel(ctx.channelMentions[0].id, p);
    sent := [Info("Canal redefinido", "Novo canal de textos: " + ctx.channelMentions[0].name, CHANNEL_FOOTER)];
  }

  /** `voice_channel_update(ctx, *args)`. With other than one argument it only sends the
      error. Otherwise every voice channel of the invoking guild named exactly `args[0]` is
      applied in turn, so the last one stays, and one confirmation is sent; with no such
      channel nothing changes and the not-found error is sent. The source raises when the
      command comes from outside a guild, or when a channel matches in a guild that is not
      registered. */
  method VoiceChannelUpdate(bot: FrameworkBot.Bot, ctx: Context, args: seq<string>, p: Platform)
    returns (sent: seq<Message>)
    requires |args| == 1 ==> ctx.guild.Some?
    requires |args| == 1 && ctx.guild.Some? && LastMatch(ctx.guild.value.voiceChannels, args[0]).Some? ==>
      IntToString(ctx.guild.value.id) in bot.customGuilds &&
      FileGuild.VOICE_CHANNEL_KEY in bot.customGuilds[IntToString(ctx.guild.value.id)].settings
    modifies TargetGuild(bot, ctx)
    ensures |sent| == 1
    ensures |args| != 1 ==> sent == [Error(VOICE_NAME_ERROR, VOICE_FOOTER)] && unchanged(TargetGuild(bot, ctx))
    ensures |args| == 1 && LastMatch(ctx.guild.value.voiceChannels, args[0]).None? ==>
      sent == [Error(VOICE_NOT_FOUND, VOICE_FOOTER)] && unchanged(TargetGuild(bot, ctx))
    ensures |args| == 1 && LastMatch(ctx.guild.value.voiceChannels, args[0]).Some? ==>
      var g := bot.customGuilds[IntToString(ctx.guild.value.id)];
      && g.voiceChannelId == ctx.guild.value.voiceChannels[LastMatch(ctx.guild.value.voiceChannels, args[0]).value].id
      && g.mainChannelId == old(g.mainChannelId) && g.settings == old(g.settings)
      && g.voiceChannel == GetChannelByValue(p, g.settings[FileGuild.VOICE_CHANNEL_KEY])
      && sent == [Info("Canal de voz redefinido", "Novo canal de voz: " + args[0], VOICE_FOOTER)]
  {
    if |args| != 1 {
      return [Error(VOICE_NAME_ERROR, VOICE_FOOTER)];
    }
    var channels := ctx.guild.value.voiceChannels;
    var channelFound := false;
    for i := 0 to |channels|
      invariant channelFound <==> LastMatch(channels[..i], args[0]).Some?
      invariant !channelFound ==> unchanged(TargetGuild(bot, ctx))
      invariant channelFound ==>
        var g := bot.customGuilds[IntToString(ctx.guild.value.id)];
        && g.voiceChannelId == channels[LastMatch(channels[..i], args[0]).value].id
        && g.mainChannelId == old(g.mainChannelId) && g.settings == old(g.settings)
        && g.voiceChannel == GetChannelByValue(p, g.settings[FileGuild.VOICE_CHANNEL_KEY])
    {
      LastMatchStep(channels, args[0], i);
      if channels[i].name == args[0] {
        var g := bot.GetCustomGuild(ctx.guild.value.id).value;
        g.UpdateVoiceChannel(channels[i].id, p);
        channelFound := true;
      }
    }
    assert channels[..|channels|] == channels;
    if channelFound {
      sent := [Info("Canal de voz redefinido", "Novo canal de voz: " + args[0], VOICE_FOOTER)];
    } else {
      sent := [Error(VOICE_NOT_FOUND, VOICE_FOOTER)];
    }
  }
}
