/** Shared vocabulary of the bot framework model: optional values, the messages a command
    sends back, the chat-platform records the core inspects, JSON-like values for stored
    records, and POSIX path joining. */
module Common {

  datatype Option<+T> = None | Some(value: T)

  /** A reply sent to the invoking context: a styled message or a styled error message. */
  datatype Message =
    | Info(title: string, description: string, footer: string)
    | Error(text: string, footer: string)

  /** A text or voice channel as the core sees it. */
  datatype Channel = Channel(id: int, name: string)

  /** A guild as the platform exposes it: its id and its channel lists, in platform order. */
  datatype GuildView = GuildView(id: int, textChannels: seq<Channel>, voiceChannels: seq<Channel>)

  /** What the platform's cache answers to `get_channel` and `get_guild`. */
  datatype Platform = Platform(channels: map<int, Channel>, guilds: map<int, GuildView>)

  /** The command context: who invoked it, in which guild (none in a direct message),
      and which channels the message mentions. */
  datatype Context = Context(authorId: int, guild: Option<GuildView>, channelMentions: seq<Channel>)

  /** A decoded JSON value. Records on disk are JSON objects (`Dict`). */
  datatype Value =
    | Int(n: int)
    | Text(s: string)
    | List(items: seq<Value>)
    | Dict(entries: map<string, Value>)

  type Record = map<string, Value>

  /** The file system as seen by the core: a path maps to the JSON object stored there. */
  type Files = map<string, Record>

  /** The platform's `get_channel(id)`. */
  function GetChannel(p: Platform, id: int): Option<Channel> {
    if id in p.channels then Some(p.channels[id]) else None
  }

  /** `get_channel` applied to a value read from a JSON record: only an integer can name a channel. */
  function GetChannelByValue(p: Platform, v: Value): Option<Channel> {
    if v.Int? then GetChannel(p, v.n) else None
  }

  /** The platform's `get_guild(id)`. */
  function GetGuild(p: Platform, id: int): Option<GuildView> {
    if id in p.guilds then Some(p.guilds[id]) else None
  }

  /** A name `os.path.join` appends to the directory; an absolute name replaces it. */
  predicate Relative(name: string) {
    name == [] || name[0] != '/'
  }

  /** `os.path.join(dir, name)` on POSIX: an absolute `name` is the result on its own. */
  function Join(dir: string, name: string): (r: string)
    ensures |r| >= |name| && r[|r| - |name|..] == name
    ensures dir == "" || !Relative(name) ==> r == name
    ensures Relative(name) ==> |r| >= |dir| + |name| && r[..|dir|] == dir
  {
    if !Relative(name) then name
    else if dir == "" || dir[|dir| - 1] == '/' then dir + name
    else dir + "/" + name
  }

  /** Two relative names joined under the same directory agree exactly when the names agree. */
  lemma JoinInjective(dir: string, a: string, b: string)
    requires Relative(a) && Relative(b)
    ensures Join(dir, a) == Join(dir, b) <==> a == b
  {
    var pre := if dir == "" || dir[|dir| - 1] == '/' then dir else dir + "/";
    assert Join(dir, a) == pre + a && Join(dir, b) == pre + b;
    if pre + a == pre + b {
      assert a == (pre + a)[|pre|..];
      assert b == (pre + b)[|pre|..];
    }
  }

  /** Two names with the same ending agree exactly when what precedes the ending agrees. */
  lemma SuffixCancel(x: string, y: string, t: string)
    ensures x + t == y + t <==> x == y
  {
    if x + t == y + t {
      assert x == (x + t)[..|x|];
      assert y == (y + t)[..|y|];
    }
  }
}
