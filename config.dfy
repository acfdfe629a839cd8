/** Reading the bot's internal settings record: the conversions `int(...)` applied to each
    admin id, and the loader shared by bot.py and discord/bot.py. */
module Config {
  import opened Common
  import opened Decimal

  /** Python's `int(v)` on a decoded JSON value: an integer as it is, text parsed as
      decimal; None where `int` raises. */
  function IntOf(v: Value): Option<int> {
    match v
    case Int(n) => Some(n)
    case Text(s) => ParseInt(s)
    case _ => None
  }

  /** `list(map(int, items))`; None when any conversion raises. */
  function IntList(items: seq<Value>): (r: Option<seq<int>>)
    ensures r.Some? ==> |r.value| == |items|
  {
    if items == [] then Some([])
    else
      match (IntOf(items[0]), IntList(items[1..]))
      case (Some(n), Some(rest)) => Some([n] + rest)
      case _ => None
  }

  /** The conversion succeeds exactly when every element converts, and then converts
      element by element. */
  lemma {:induction false} IntListElements(items: seq<Value>)
    ensures IntList(items).Some? <==> forall i :: 0 <= i < |items| ==> IntOf(items[i]).Some?
    ensures IntList(items).Some? ==>
      forall i :: 0 <= i < |items| ==> IntList(items).value[i] == IntOf(items[i]).value
  {
    if items != [] {
      IntListElements(items[1..]);
      assert forall i :: 1 <= i < |items| ==> items[i] == items[1..][i - 1];
    }
  }

  /** An author is in the converted admin list exactly when some listed value converts to
      that author's id. */
  lemma AdminListMembership(items: seq<Value>, author: int)
    requires IntList(items).Some?
    ensures author in IntList(items).value <==>
      exists i :: 0 <= i < |items| && IntOf(items[i]) == Some(author)
  {
    IntListElements(items);
    var ids := IntList(items).value;
    if author in ids {
      var k :| 0 <= k < |ids| && ids[k] == author;
      assert IntOf(items[k]) == Some(author);
    }
  }

  /** A JSON list of strings, as the list of those strings. */
  function TextList(items: seq<Value>): (r: Option<seq<string>>)
    ensures r.Some? ==> |r.value| == |items|
    ensures r.Some? ==> forall i :: 0 <= i < |items| ==> items[i] == Text(r.value[i])
  {
    if items == [] then Some([])
    else if !items[0].Text? then None
    else
      match TextList(items[1..])
      case Some(rest) => Some([items[0].s] + rest)
      case None => None
  }

  /** `load_internal_settings(path)` of bot.py and discord/bot.py: no record for the
      empty path or a missing file, otherwise the decoded file. */
  function LoadInternalSettings(path: string, files: Files): Option<Record> {
    if path == "" then None
    else if path in files then Some(files[path])
    else None
  }

  lemma LoadInternalSettingsCases(path: string, files: Files)
    ensures path == "" ==> LoadInternalSettings(path, files) == None
    ensures path != "" && path !in files ==> LoadInternalSettings(path, files) == None
    ensures path != "" && path in files ==> LoadInternalSettings(path, files) == Some(files[path])
  {
  }

  /** The admin id list of a record, converted; None when the key is missing, is not a
      JSON list, or an element does not convert. */
  function AdminIds(r: Record, key: string): Option<seq<int>> {
    if key in r && r[key].List? then IntList(r[key].items) else None
  }

  /** The text stored under `key`, if it is text. */
  function TextField(r: Record, key: string): Option<string> {
    if key in r && r[key].Text? then Some(r[key].s) else None
  }

  /** The list of strings stored under `key`, if it is one. */
  function TextListField(r: Record, key: string): Option<seq<string>> {
    if key in r && r[key].List? then TextList(r[key].items) else None
  }
}
