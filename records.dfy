/**
 * The file-backed submission store: where a record lives, what it holds, and
 * the lookups that let a record be found again from the id of its message.
 */
module Records {
  import opened Wrappers
  import opened Text
  import opened Discord

  datatype SubmissionType = Suggestion | Bug

  /** The `type` string of a record and the stem of its directory name. */
  function TypeName(t: SubmissionType): string {
    match t
    case Suggestion => "suggestion"
    case Bug => "bug"
  }

  /** One stored submission: the four fields of the JSON file (`kind` is its `type` field). */
  datatype Record = Record(link: string, kind: string, author: string, msg: string)

  /** The store: file path to file contents. */
  type Files = map<string, Record>

  function Directory(t: SubmissionType): string {
    "./data/" + TypeName(t) + "s/"
  }

  /** The file name of the record of a message. */
  function Title(id: string): string {
    id + ".json"
  }


  predicate InDirectory(p: string, t: SubmissionType) {
    var d := Directory(t);
    |p| >= |d| + 5 && p[..|d|] == d && p[|p| - 5..] == ".json"
  }

  /** Recovers the type and message id from a record path. */
  function ParsePath(p: string): Option<(SubmissionType, string)> {
    if InDirectory(p, Suggestion) then Some((Suggestion, p[|Directory(Suggestion)|..|p| - 5]))
    else if InDirectory(p, Bug) then Some((Bug, p[|Directory(Bug)|..|p| - 5]))
    else None
  }

  /** The path of the record of message `id` of type `t`. */
  function RecordPath(t: SubmissionType, id: string): string {
    Directory(t) + Title(id)
  }

  /** Parsing a record path gives back the type and id it was built from. */
  lemma ParseRecordPath(t: SubmissionType, id: string)
    ensures ParsePath(RecordPath(t, id)) == Some((t, id))
  {
    var p := RecordPath(t, id);
    var d := Directory(t);
    assert p[..|d|] == d;
    assert p[|p| - 5..] == ".json";
    assert p[|d|..|p| - 5] == id;
    if t == Bug {
      assert p[7] == 'b';
    }
  }

  /** Every path that parses is the record path of what it parses to. */
  lemma ParsedPathIsRecordPath(p: string)
    requires ParsePath(p).Some?
    ensures RecordPath(ParsePath(p).value.0, ParsePath(p).value.1) == p
  {
    var (t, id) := ParsePath(p).value;
    var d := Directory(t);
    assert p == p[..|d|] + p[|d|..|p| - 5] + p[|p| - 5..];
  }

  /** Distinct (type, message) pairs never share a file. */
  lemma RecordPathInjective(t1: SubmissionType, id1: string, t2: SubmissionType, id2: string)
    requires RecordPath(t1, id1) == RecordPath(t2, id2)
    ensures t1 == t2 && id1 == id2
  {
    ParseRecordPath(t1, id1);
    ParseRecordPath(t2, id2);
  }

  const LinkPrefix := "https://discordapp.com/channels/"

  /** The jump link of a message. */
  function MessageLink(guild: string, channel: string, id: string): string {
    LinkPrefix + guild + "/" + channel + "/" + id
  }

  datatype LinkParts = LinkParts(guild: string, channel: string, message: string)

  /** Recovers guild, channel and message id from a jump link. */
  function ParseLink(link: string): Option<LinkParts> {
    if |link| >= |LinkPrefix| && link[..|LinkPrefix|] == LinkPrefix then
      var parts := Split(link[|LinkPrefix|..], '/');
      if |parts| == 3 then Some(LinkParts(parts[0], parts[1], parts[2])) else None
    else None
  }

  /** A link built from three ids parses back to those ids. */
  lemma ParseMessageLink(guild: Snowflake, channel: Snowflake, id: Snowflake)
    ensures ParseLink(MessageLink(guild, channel, id)) == Some(LinkParts(guild, channel, id))
  {
    var link := MessageLink(guild, channel, id);
    var rest := guild + "/" + channel + "/" + id;
    assert link == LinkPrefix + rest;
    assert link[|LinkPrefix|..] == rest;
    SnowflakeHasNoSlash(guild);
    SnowflakeHasNoSlash(channel);
    SnowflakeHasNoSlash(id);
    assert [guild, channel, id][1..] == [channel, id];
    assert [channel, id][1..] == [id];
    assert Join([channel, id], '/') == channel + "/" + id;
    assert Join([guild, channel, id], '/') == rest;
    SplitJoin([guild, channel, id], '/');
  }

  /** The record `createFile` writes for a message posted in a guild. */
  function MakeRecord(m: Message, t: SubmissionType): Record
    requires m.guild.Some?
  {
    Record(MessageLink(m.guild.value, m.channelId, m.id), TypeName(t), m.author.tag, m.content)
  }

  /** A record of type t whose link points at message id. */
  predicate Describes(r: Record, t: SubmissionType, id: string) {
    r.kind == TypeName(t) && ParseLink(r.link).Some? && ParseLink(r.link).value.message == id
  }

  /**
   * The store invariant: every file is a record path, and the record in it
   * has the type of its directory and links to the message named by its title.
   */
  predicate Consistent(files: Files) {
    forall p {:trigger WellPlaced(p, files[p])} | p in files :: WellPlaced(p, files[p])
  }

  /** The record r may be stored at path p. */
  predicate WellPlaced(p: string, r: Record) {
    ParsePath(p).Some? && Describes(r, ParsePath(p).value.0, ParsePath(p).value.1)
  }

  /** The store after `createFile(m, t)`. */
  function WriteRecord(files: Files, m: Message, t: SubmissionType): Files
    requires m.guild.Some?
  {
    files[RecordPath(t, m.id) := MakeRecord(m, t)]
  }

  /** The store after `scanAndRemoveFile` for message id. */
  function RemoveRecords(files: Files, id: string): Files {
    files - {RecordPath(Suggestion, id), RecordPath(Bug, id)}
  }

  /** A freshly made record describes its own message, under its own type. */
  lemma MakeRecordDescribes(m: Message, t: SubmissionType)
    requires m.guild.Some?
    ensures Describes(MakeRecord(m, t), t, m.id)
  {
    ParseMessageLink(m.guild.value, m.channelId, m.id);
  }

  /** Writing a record keeps the store invariant. */
  lemma WritePreservesConsistent(files: Files, m: Message, t: SubmissionType)
    requires m.guild.Some?
    requires Consistent(files)
    ensures Consistent(WriteRecord(files, m, t))
  {
    ParseRecordPath(t, m.id);
    MakeRecordDescribes(m, t);
  }

  /** Removing records keeps the store invariant. */
  lemma RemovePreservesConsistent(files: Files, id: string)
    requires Consistent(files)
    ensures Consistent(RemoveRecords(files, id))
  {
  }

  /**
   * Removal for message id deletes exactly the files whose path parses to
   * that id, under either type, and keeps every other file with its contents.
   */
  lemma RemoveRecordsExact(files: Files, id: string, p: string)
    ensures p in RemoveRecords(files, id) <==>
              p in files && ParsePath(p) != Some((Suggestion, id)) && ParsePath(p) != Some((Bug, id))
    ensures p in RemoveRecords(files, id) ==> RemoveRecords(files, id)[p] == files[p]
  {
    ParseRecordPath(Suggestion, id);
    ParseRecordPath(Bug, id);
    if ParsePath(p).Some? {
      ParsedPathIsRecordPath(p);
    }
  }

  /** The record r is a jump link to message id. */
  predicate LinksTo(r: Record, id: string) {
    ParseLink(r.link).Some? && ParseLink(r.link).value.message == id
  }

  /**
   * In a consistent store, removal for message id deletes exactly the
   * records whose link points at that message: the file naming is an index
   * from message id to records, so no record has to be opened to find them.
   */
  lemma RemoveRecordsByLink(files: Files, id: string, p: string)
    requires Consistent(files)
    requires p in files
    ensures p !in RemoveRecords(files, id) <==> LinksTo(files[p], id)
  {
    assert WellPlaced(p, files[p]);
    RemoveRecordsExact(files, id, p);
  }

  /** Removing one message's records leaves the records of every other message. */
  lemma RemoveKeepsOtherMessages(files: Files, id: string, t: SubmissionType, other: string)
    requires other != id
    ensures RecordPath(t, other) in RemoveRecords(files, id) <==> RecordPath(t, other) in files
  {
    if RecordPath(t, other) == RecordPath(Suggestion, id) {
      RecordPathInjective(t, other, Suggestion, id);
    }
    if RecordPath(t, other) == RecordPath(Bug, id) {
      RecordPathInjective(t, other, Bug, id);
    }
  }

  /** Removing after writing undoes the write: the store is as if never written. */
  lemma RemoveAfterWrite(files: Files, m: Message, t: SubmissionType)
    requires m.guild.Some?
    ensures RemoveRecords(WriteRecord(files, m, t), m.id) == RemoveRecords(files, m.id)
  {
    assert RecordPath(t, m.id) in {RecordPath(Suggestion, m.id), RecordPath(Bug, m.id)};
  }
}
