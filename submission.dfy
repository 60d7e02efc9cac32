/**
 * The submission flow: messages in the submission channels that mention the
 * suggestion or bug role become records in the file store, get the four
 * voting reactions, and are removed again when their message is deleted or
 * rejected with ❌ by its author or a moderator. First-time suggestors go
 * through the confirmation gate.
 *
 * Each handler is specified by a pure function from (configuration, store,
 * event) to an Outcome: the new store, the effects the handler issues in
 * order, and the confirmation gate it leaves. The `Bot` class holds the store
 * and carries out the handlers step by step, proved against those functions.
 */
module Submission {
  import opened Wrappers
  import opened Discord
  import opened Records
  import opened Above
  import opened Confirmation

  /** The static configuration the handlers read. */
  datatype Config = Config(
    validSubmissionChannels: seq<Snowflake>,
    rolesThatCanRemoveSubmissions: seq<Snowflake>,
    roleSuggestionId: Snowflake,
    roleBugId: Snowflake)

  const Marker := "\U{1F916}"
  const Upvote := "\U{1F44D}"
  const Downvote := "\U{1F44E}"
  const Cross := "\U{274C}"

  /** The file holding the suggestor registry. */
  const UsersPath := "./data/users.json"

  /** What a handler does outside the record store, in the order it does it. */
  datatype Effect =
    | WriteFile(path: string)
    | UnlinkFile(path: string)
    | React(messageId: Snowflake, emoji: string)
    | DeleteMessage(messageId: Snowflake)
    | ClearReactions(messageId: Snowflake)
    | PromptReply(replyTo: Snowflake, prompt: Snowflake)
    | ThankPrompt(prompt: Snowflake)

  /** The result of one handler run. */
  datatype Outcome = Outcome(files: Files, suggestors: seq<Snowflake>, emitted: seq<Effect>, gate: Gate)

  predicate FromValidChannel(cfg: Config, m: Message) {
    m.channelId in cfg.validSubmissionChannels
  }

  /** The four reactions a recorded submission gets, in the order they are chained. */
  function Votes(id: Snowflake): seq<Effect> {
    [React(id, Marker), React(id, Upvote), React(id, Downvote), React(id, Cross)]
  }

  /** What `handleSubmission` emits: the record file, then the reactions. */
  function SubmissionEffects(m: Message, t: SubmissionType): seq<Effect> {
    [WriteFile(RecordPath(t, m.id))] + Votes(m.id)
  }

  /**
   * How `validateSubmission` reads a message: ignored, or a submission with
   * its bug and suggestion flags and, for an `above N` command, its target.
   */
  datatype Decision = Ignore | Submit(bug: bool, suggestion: bool, above: Option<nat>)

  function Classify(cfg: Config, m: Message): (d: Decision)
    ensures d.Ignore? <==>
              !FromValidChannel(cfg, m) || m.mentionedRoles.None? ||
              (cfg.roleSuggestionId !in m.mentionedRoles.value && cfg.roleBugId !in m.mentionedRoles.value)
    ensures d.Submit? ==>
              && (d.suggestion <==> cfg.roleSuggestionId in m.mentionedRoles.value)
              && (d.bug <==> cfg.roleBugId in m.mentionedRoles.value)
              && d.above == ParseAbove(m.content)
  {
    if !FromValidChannel(cfg, m) then Ignore
    else
      match m.mentionedRoles
      case None => Ignore
      case Some(roles) =>
        if cfg.roleSuggestionId !in roles && cfg.roleBugId !in roles then Ignore
        else Submit(cfg.roleBugId in roles, cfg.roleSuggestionId in roles, ParseAbove(m.content))
  }

  /**
   * `confirmSuggestion`: a known suggestor is recorded at once and the gate
   * stays idle; a first-timer is prompted, nothing is recorded and the gate
   * waits on the prompt. The registry is never changed here.
   */
  function ConfirmSpec(files: Files, suggestors: seq<Snowflake>, m: Message, prompt: Snowflake): (out: Outcome)
    requires m.guild.Some?
    ensures out.suggestors == suggestors
    ensures out.gate.Idle? <==> m.author.id in suggestors
    ensures out.gate.Idle? ==>
              RecordPath(Suggestion, m.id) in out.files && out.files[RecordPath(Suggestion, m.id)] == MakeRecord(m, Suggestion)
    ensures !out.gate.Idle? ==> out.files == files && out.gate == Pending(m, prompt)
  {
    if m.author.id in suggestors then
      Outcome(WriteRecord(files, m, Suggestion), suggestors, SubmissionEffects(m, Suggestion), Idle)
    else
      Outcome(files, suggestors, [PromptReply(m.id, prompt), React(prompt, Check)], Pending(m, prompt))
  }

  /** The store after recording m as a bug and/or a suggestion, bug first. */
  function RecordFlagged(files: Files, m: Message, bug: bool, suggestion: bool): Files
    requires m.guild.Some?
  {
    var afterBug := if bug then WriteRecord(files, m, Bug) else files;
    if suggestion then WriteRecord(afterBug, m, Suggestion) else afterBug
  }

  function FlaggedEffects(m: Message, bug: bool, suggestion: bool): seq<Effect> {
    (if bug then SubmissionEffects(m, Bug) else []) + (if suggestion then SubmissionEffects(m, Suggestion) else [])
  }

  /**
   * `validateSubmission`. `target` is the message that the channel cache
   * yields for an `above` command (None when it yields nothing), and
   * `prompt` the id the confirmation reply would get.
   */
  function ValidateSpec(cfg: Config, files: Files, suggestors: seq<Snowflake>, m: Message,
                        target: Option<Message>, prompt: Snowflake): (out: Outcome)
    requires m.guild.Some?
    requires target.Some? ==> target.value.guild.Some?
    ensures out.suggestors == suggestors
    ensures files.Keys <= out.files.Keys
    ensures Classify(cfg, m).Ignore? ==> out == Outcome(files, suggestors, [], Idle)
    ensures !out.gate.Idle? ==>
              out.gate == Pending(m, prompt) && m.author.id !in suggestors && ParseAbove(m.content).None?
  {
    match Classify(cfg, m)
    case Ignore => Outcome(files, suggestors, [], Idle)
    case Submit(bug, suggestion, above) =>
      if above.Some? then
        match target
        case None => Outcome(files, suggestors, [DeleteMessage(m.id)], Idle)
        case Some(t) =>
          Outcome(RecordFlagged(files, t, bug, suggestion), suggestors,
                  [DeleteMessage(m.id)] + FlaggedEffects(t, bug, suggestion), Idle)
      else
        var afterBug := RecordFlagged(files, m, bug, false);
        var bugEffects := FlaggedEffects(m, bug, false);
        if suggestion then
          var c := ConfirmSpec(afterBug, suggestors, m, prompt);
          Outcome(c.files, c.suggestors, bugEffects + c.emitted, c.gate)
        else
          Outcome(afterBug, suggestors, bugEffects, Idle)
  }

  /**
   * The `message` handler: bots and direct messages are ignored. A new
   * message never removes a record and never registers a suggestor; the only
   * gate it can open waits on its own prompt.
   */
  function MessageSpec(cfg: Config, files: Files, suggestors: seq<Snowflake>, m: Message,
                       target: Option<Message>, prompt: Snowflake): (out: Outcome)
    requires target.Some? ==> target.value.guild.Some?
    ensures out.suggestors == suggestors
    ensures files.Keys <= out.files.Keys
    ensures m.author.bot || m.guild.None? ==> out == Outcome(files, suggestors, [], Idle)
    ensures !out.gate.Idle? ==> out.gate == Pending(m, prompt)
  {
    if m.author.bot || m.guild.None? then Outcome(files, suggestors, [], Idle)
    else ValidateSpec(cfg, files, suggestors, m, target, prompt)
  }

  /**
   * One event on a confirmation gate: confirming records and registers,
   * expiring discards. The registry only ever grows by the confirming
   * author, and the store changes only on the author's ✅.
   */
  function ResolveSpec(files: Files, suggestors: seq<Snowflake>, g: Gate, e: GateEvent): (out: Outcome)
    requires g.Pending? ==> g.suggestion.guild.Some?
    ensures out.gate == Step(g, e)
    ensures out.suggestors == suggestors || (g.Pending? && out.suggestors == suggestors + [g.suggestion.author.id])
    ensures out.files != files || out.suggestors != suggestors ==> g.Pending? && Accepts(g.suggestion, e)
    ensures files.Keys <= out.files.Keys
  {
    var next := Step(g, e);
    if g.Pending? && next.Confirmed? then
      var m := g.suggestion;
      Outcome(WriteRecord(files, m, Suggestion), suggestors + [m.author.id],
              [ThankPrompt(g.prompt)] + SubmissionEffects(m, Suggestion)
                + [WriteFile(UsersPath), DeleteMessage(g.prompt)], next)
    else if g.Pending? && next.Expired? then
      Outcome(files, suggestors, [DeleteMessage(g.prompt), DeleteMessage(g.suggestion.id)], next)
    else
      Outcome(files, suggestors, [], next)
  }

  /** The unlinks `scanAndRemoveFile` issues: suggestion file first, then bug file, each if present. */
  function RemovalEffects(files: Files, id: Snowflake): seq<Effect> {
    (if RecordPath(Suggestion, id) in files then [UnlinkFile(RecordPath(Suggestion, id))] else [])
      + (if RecordPath(Bug, id) in files then [UnlinkFile(RecordPath(Bug, id))] else [])
  }

  /**
   * The `messageDelete` handler: in a submission channel, no record of the
   * message survives; nothing is ever added, and the registry is untouched.
   */
  function DeleteSpec(cfg: Config, files: Files, suggestors: seq<Snowflake>, m: Message): (out: Outcome)
    ensures out.suggestors == suggestors && out.gate == Idle
    ensures out.files.Keys <= files.Keys
    ensures FromValidChannel(cfg, m) ==>
              RecordPath(Suggestion, m.id) !in out.files && RecordPath(Bug, m.id) !in out.files
    ensures !FromValidChannel(cfg, m) ==> out == Outcome(files, suggestors, [], Idle)
  {
    if FromValidChannel(cfg, m) then Outcome(RemoveRecords(files, m.id), suggestors, RemovalEffects(files, m.id), Idle)
    else Outcome(files, suggestors, [], Idle)
  }

  /**
   * The guards of the ❌ handler, in the order the source tests them.
   * `memberRoles` is the reactor's role set as a guild member, None when the
   * reactor is not a member.
   */
  predicate MayRemove(cfg: Config, r: Reaction, memberRoles: Option<set<Snowflake>>)
    ensures MayRemove(cfg, r, memberRoles) ==>
              r.emoji == Cross && Marker in r.present && memberRoles.Some? && !r.reactor.bot
    ensures (&& Fetched(r) && !r.reactor.bot && FromValidChannel(cfg, r.message) && r.emoji == Cross
             && memberRoles.Some? && Marker in r.present)
            ==> (MayRemove(cfg, r, memberRoles) <==>
                   r.message.author.id == r.reactor.id
                   || exists i :: 0 <= i < |cfg.rolesThatCanRemoveSubmissions|
                                 && cfg.rolesThatCanRemoveSubmissions[i] in memberRoles.value)
  {
    && Fetched(r)
    && !r.reactor.bot
    && FromValidChannel(cfg, r.message)
    && r.emoji == Cross
    && memberRoles.Some?
    && Marker in r.present
    && (r.message.author.id == r.reactor.id
        || exists role :: role in memberRoles.value && role in cfg.rolesThatCanRemoveSubmissions)
  }

  /** The ❌ handler: an authorised rejection clears the reactions and removes the records. */
  function RejectSpec(cfg: Config, files: Files, suggestors: seq<Snowflake>, r: Reaction,
                      memberRoles: Option<set<Snowflake>>): (out: Outcome)
    ensures out.suggestors == suggestors && out.gate == Idle
    ensures out.files.Keys <= files.Keys
    ensures out.emitted != [] <==> MayRemove(cfg, r, memberRoles)
  {
    if MayRemove(cfg, r, memberRoles) then
      Outcome(RemoveRecords(files, r.message.id), suggestors,
              [ClearReactions(r.message.id)] + RemovalEffects(files, r.message.id), Idle)
    else Outcome(files, suggestors, [], Idle)
  }

  // ---------------------------------------------------------------------
  // Properties of the handlers

  /** Recording flagged submissions keeps the store invariant. */
  lemma RecordFlaggedConsistent(files: Files, m: Message, bug: bool, suggestion: bool)
    requires m.guild.Some?
    requires Consistent(files)
    ensures Consistent(RecordFlagged(files, m, bug, suggestion))
  {
    var afterBug := if bug then WriteRecord(files, m, Bug) else files;
    if bug {
      WritePreservesConsistent(files, m, Bug);
    }
    if suggestion {
      WritePreservesConsistent(afterBug, m, Suggestion);
    }
  }

  /** A new message keeps the store invariant. */
  lemma MessageKeepsConsistent(cfg: Config, files: Files, suggestors: seq<Snowflake>, m: Message,
                               target: Option<Message>, prompt: Snowflake)
    requires target.Some? ==> target.value.guild.Some?
    requires Consistent(files)
    ensures Consistent(MessageSpec(cfg, files, suggestors, m, target, prompt).files)
  {
    if !m.author.bot && m.guild.Some? {
      match Classify(cfg, m)
      case Ignore =>
      case Submit(bug, suggestion, above) =>
        if above.Some? {
          if target.Some? {
            RecordFlaggedConsistent(files, target.value, bug, suggestion);
          }
        } else {
          RecordFlaggedConsistent(files, m, bug, false);
          if suggestion && m.author.id in suggestors {
            WritePreservesConsistent(RecordFlagged(files, m, bug, false), m, Suggestion);
          }
        }
    }
  }

  /**
   * A message that is not a submission (from a bot, outside a guild, in
   * another channel, or mentioning neither role) changes nothing.
   */
  lemma IgnoredMessageChangesNothing(cfg: Config, files: Files, suggestors: seq<Snowflake>, m: Message,
                                     target: Option<Message>, prompt: Snowflake)
    requires target.Some? ==> target.value.guild.Some?
    requires m.author.bot || m.guild.None? || Classify(cfg, m).Ignore?
    ensures MessageSpec(cfg, files, suggestors, m, target, prompt) == Outcome(files, suggestors, [], Idle)
  {
  }

  /**
   * An `above N` command deletes the command message and records the target
   * directly, bug first, without a confirmation prompt, whoever sent it.
   */
  lemma AboveSkipsGate(cfg: Config, files: Files, suggestors: seq<Snowflake>, m: Message,
                       t: Message, prompt: Snowflake)
    requires t.guild.Some? && !m.author.bot && m.guild.Some?
    requires Classify(cfg, m).Submit? && ParseAbove(m.content).Some?
    ensures var out := MessageSpec(cfg, files, suggestors, m, Some(t), prompt);
            && out.gate == Idle && out.suggestors == suggestors
            && out.emitted == [DeleteMessage(m.id)]
                 + FlaggedEffects(t, Classify(cfg, m).bug, Classify(cfg, m).suggestion)
            && (Classify(cfg, m).suggestion ==>
                  out.files[RecordPath(Suggestion, t.id)] == MakeRecord(t, Suggestion))
            && (Classify(cfg, m).bug ==> out.files[RecordPath(Bug, t.id)] == MakeRecord(t, Bug))
  {
    if Classify(cfg, m).bug && Classify(cfg, m).suggestion {
      RecordPathDistinct(t.id);
    }
  }

  /** The two records of one message live in different files. */
  lemma RecordPathDistinct(id: string)
    ensures RecordPath(Bug, id) != RecordPath(Suggestion, id)
  {
    if RecordPath(Bug, id) == RecordPath(Suggestion, id) {
      RecordPathInjective(Bug, id, Suggestion, id);
    }
  }

  /**
   * A first-time suggestor's plain suggestion is not recorded yet: the store
   * changes only by the bug record, if the message is also a bug report, so
   * whatever it had at the suggestion's path is kept; the registry is
   * unchanged, and the gate is pending on the prompt.
   */
  lemma FirstSuggestionWaits(cfg: Config, files: Files, suggestors: seq<Snowflake>, m: Message,
                             target: Option<Message>, prompt: Snowflake)
    requires target.Some? ==> target.value.guild.Some?
    requires !m.author.bot && m.guild.Some?
    requires Classify(cfg, m).Submit? && Classify(cfg, m).suggestion && ParseAbove(m.content).None?
    requires m.author.id !in suggestors
    ensures var out := MessageSpec(cfg, files, suggestors, m, target, prompt);
            && out.gate == Pending(m, prompt)
            && out.suggestors == suggestors
            && out.files == RecordFlagged(files, m, Classify(cfg, m).bug, false)
            && (RecordPath(Suggestion, m.id) in out.files <==> RecordPath(Suggestion, m.id) in files)
            && out.emitted == FlaggedEffects(m, Classify(cfg, m).bug, false)
                                + [PromptReply(m.id, prompt), React(prompt, Check)]
  {
    RecordPathDistinct(m.id);
  }

  /** A repeat suggestor's suggestion is recorded at once, with no prompt. */
  lemma RepeatSuggestorRecorded(cfg: Config, files: Files, suggestors: seq<Snowflake>, m: Message,
                                target: Option<Message>, prompt: Snowflake)
    requires target.Some? ==> target.value.guild.Some?
    requires !m.author.bot && m.guild.Some?
    requires Classify(cfg, m).Submit? && Classify(cfg, m).suggestion && ParseAbove(m.content).None?
    requires m.author.id in suggestors
    ensures var out := MessageSpec(cfg, files, suggestors, m, target, prompt);
            && out.gate == Idle
            && out.suggestors == suggestors
            && out.files[RecordPath(Suggestion, m.id)] == MakeRecord(m, Suggestion)
            && out.emitted == FlaggedEffects(m, Classify(cfg, m).bug, true)
  {
  }

  /**
   * The author's ✅ on a pending prompt records the suggestion and registers
   * the author, after which the author is no longer a first-time suggestor.
   */
  lemma ConfirmationRecords(files: Files, suggestors: seq<Snowflake>, m: Message, prompt: Snowflake, e: GateEvent)
    requires m.guild.Some?
    requires Accepts(m, e)
    ensures var out := ResolveSpec(files, suggestors, Pending(m, prompt), e);
            && out.gate == Confirmed(m, prompt)
            && out.files == WriteRecord(files, m, Suggestion)
            && out.suggestors == suggestors + [m.author.id]
            && m.author.id in out.suggestors
  {
  }

  /** A timed-out prompt deletes the prompt and the suggestion and records nothing. */
  lemma TimeoutDiscards(files: Files, suggestors: seq<Snowflake>, m: Message, prompt: Snowflake)
    requires m.guild.Some?
    ensures ResolveSpec(files, suggestors, Pending(m, prompt), TimedOut)
              == Outcome(files, suggestors, [DeleteMessage(prompt), DeleteMessage(m.id)], Expired(m, prompt))
  {
  }

  /**
   * A first-time suggestor's message that also mentions the bug role loses
   * its bug record when the confirmation window times out: the timeout
   * deletes the message, and the `messageDelete` handler then removes every
   * record of that message, the bug record included.
   */
  lemma TimeoutDropsBugRecord(cfg: Config, files: Files, suggestors: seq<Snowflake>, m: Message, prompt: Snowflake)
    requires !m.author.bot && m.guild.Some?
    requires Classify(cfg, m).Submit? && Classify(cfg, m).bug && Classify(cfg, m).suggestion
    requires ParseAbove(m.content).None? && m.author.id !in suggestors
    ensures var out := MessageSpec(cfg, files, suggestors, m, None, prompt);
            var expired := ResolveSpec(out.files, out.suggestors, out.gate, TimedOut);
            var deleted := DeleteSpec(cfg, expired.files, expired.suggestors, m);
            && out.files[RecordPath(Bug, m.id)] == MakeRecord(m, Bug)
            && expired.gate == Expired(m, prompt)
            && DeleteMessage(m.id) in expired.emitted
            && RecordPath(Bug, m.id) !in deleted.files
            && deleted.files == RemoveRecords(files, m.id)
  {
    var out := MessageSpec(cfg, files, suggestors, m, None, prompt);
    assert out.files == WriteRecord(files, m, Bug);
    RemoveAfterWrite(files, m, Bug);
  }

  /**
   * Deleting a submitted message removes every record the submission made:
   * after the `message` handler and then the `messageDelete` handler for the
   * same message, the store is the old store without that message's records.
   */
  lemma DeleteUndoesSubmission(cfg: Config, files: Files, suggestors: seq<Snowflake>, m: Message,
                               prompt: Snowflake)
    requires !m.author.bot && m.guild.Some?
    requires Classify(cfg, m).Submit? && ParseAbove(m.content).None?
    ensures var out := MessageSpec(cfg, files, suggestors, m, None, prompt);
            DeleteSpec(cfg, out.files, out.suggestors, m).files == RemoveRecords(files, m.id)
  {
    var d := Classify(cfg, m);
    var afterBug := RecordFlagged(files, m, d.bug, false);
    if d.bug {
      RemoveAfterWrite(files, m, Bug);
    }
    if d.suggestion && m.author.id in suggestors {
      RemoveAfterWrite(afterBug, m, Suggestion);
    }
  }

  /**
   * A ❌ changes the store only when every guard holds, and then it removes
   * exactly the records of the reacted message; in particular a reactor who
   * is neither the author nor a moderator changes nothing.
   */
  lemma RejectOnlyWhenAuthorised(cfg: Config, files: Files, suggestors: seq<Snowflake>, r: Reaction,
                                 memberRoles: Option<set<Snowflake>>)
    ensures var out := RejectSpec(cfg, files, suggestors, r, memberRoles);
            && out.suggestors == suggestors
            && (out.files != files ==> MayRemove(cfg, r, memberRoles))
            && (MayRemove(cfg, r, memberRoles) ==> out.files == RemoveRecords(files, r.message.id))
            && ((&& r.reactor.id != r.message.author.id
                 && memberRoles.Some?
                 && (forall role :: role in memberRoles.value ==> role !in cfg.rolesThatCanRemoveSubmissions))
                ==> out == Outcome(files, suggestors, [], Idle))
  {
  }

  // ---------------------------------------------------------------------
  // The bot: the record store, the suggestor registry and the effect log

  class Bot {
    const cfg: Config
    var files: Files
    var suggestors: seq<Snowflake>
    var effects: seq<Effect>

    ghost predicate Valid()
      reads this
    {
      Consistent(files)
    }

    constructor (cfg: Config, files: Files, suggestors: seq<Snowflake>)
      requires Consistent(files)
      ensures Valid()
      ensures this.cfg == cfg && this.files == files && this.suggestors == suggestors && effects == []
    {
      this.cfg := cfg;
      this.files := files;
      this.suggestors := suggestors;
      effects := [];
    }

    /** `isFirstSuggestion`: no entry of the registry is the user's id. */
    predicate IsFirstSuggestion(u: User)
      reads this
      ensures IsFirstSuggestion(u) <==> forall i :: 0 <= i < |suggestors| ==> suggestors[i] != u.id
    {
      u.id !in suggestors
    }

    /** `addUserToList`: append the id to the registry and rewrite its file. */
    method AddUserToList(u: User)
      modifies this`suggestors, this`effects
      ensures suggestors == old(suggestors) + [u.id]
      ensures effects == old(effects) + [WriteFile(UsersPath)]
      ensures !IsFirstSuggestion(u)
      ensures forall id :: id != u.id ==> (id in suggestors <==> id in old(suggestors))
    {
      suggestors := suggestors + [u.id];
      effects := effects + [WriteFile(UsersPath)];
    }

    /** `createFile`: write the record of m under its type's directory. */
    method CreateFile(m: Message, t: SubmissionType)
      requires Valid() && m.guild.Some?
      modifies this`files, this`effects
      ensures Valid()
      ensures files == WriteRecord(old(files), m, t)
      ensures effects == old(effects) + [WriteFile(RecordPath(t, m.id))]
    {
      var title := Title(m.id);
      var link := MessageLink(m.guild.value, m.channelId, m.id);
      var record := Record(link, TypeName(t), m.author.tag, m.content);
      var path := "./data/" + TypeName(t) + "s/" + title;
      WritePreservesConsistent(files, m, t);
      files := files[path := record];
      effects := effects + [WriteFile(path)];
    }

    /** `handleSubmission`: record m, then add the four reactions in order. */
    method HandleSubmission(m: Message, t: SubmissionType)
      requires Valid() && m.guild.Some?
      modifies this`files, this`effects
      ensures Valid()
      ensures files == WriteRecord(old(files), m, t)
      ensures effects == old(effects) + SubmissionEffects(m, t)
    {
      CreateFile(m, t);
      effects := effects + [React(m.id, Marker)];
      effects := effects + [React(m.id, Upvote)];
      effects := effects + [React(m.id, Downvote)];
      effects := effects + [React(m.id, Cross)];
    }

    /** Records m as a bug and then as a suggestion, each only when flagged. */
    method HandleFlagged(m: Message, bug: bool, suggestion: bool)
      requires Valid() && m.guild.Some?
      modifies this`files, this`effects
      ensures Valid()
      ensures files == RecordFlagged(old(files), m, bug, suggestion)
      ensures effects == old(effects) + FlaggedEffects(m, bug, suggestion)
    {
      if bug {
        HandleSubmission(m, Bug);
      }
      if suggestion {
        HandleSubmission(m, Suggestion);
      }
    }

    /** `removeFile`: unlink the file `title` in the directory of type t. */
    method RemoveFile(title: string, t: SubmissionType)
      requires Valid()
      modifies this`files, this`effects
      ensures Valid()
      ensures files == old(files) - {Directory(t) + title}
      ensures effects == old(effects) + [UnlinkFile(Directory(t) + title)]
    {
      var path := "./data/" + TypeName(t) + "s/" + title;
      files := files - {path};
      effects := effects + [UnlinkFile(path)];
    }

    /** `scanAndRemoveFile`: probe the suggestion and the bug path of message id, removing what exists. */
    method ScanAndRemoveFile(id: Snowflake)
      requires Valid()
      modifies this`files, this`effects
      ensures Valid()
      ensures files == RemoveRecords(old(files), id)
      ensures effects == old(effects) + RemovalEffects(old(files), id)
    {
      var title := Title(id);
      RecordPathDistinct(id);
      if RecordPath(Suggestion, id) in files {
        RemoveFile(title, Suggestion);
      }
      if RecordPath(Bug, id) in files {
        RemoveFile(title, Bug);
      }
    }

    /** `confirmSuggestion` up to the start of the collector. */
    method ConfirmSuggestion(m: Message, prompt: Snowflake) returns (g: Gate)
      requires Valid() && m.guild.Some?
      modifies this`files, this`effects
      ensures Valid()
      ensures var out := ConfirmSpec(old(files), old(suggestors), m, prompt);
              files == out.files && effects == old(effects) + out.emitted && g == out.gate
    {
      if !IsFirstSuggestion(m.author) {
        HandleSubmission(m, Suggestion);
        g := Idle;
        return;
      }
      effects := effects + [PromptReply(m.id, prompt)];
      effects := effects + [React(prompt, Check)];
      g := Pending(m, prompt);
    }

    /**
     * The collector on the prompt, one event at a time: the filter (a ✅ by
     * the suggestion's author) is evaluated on the event, a collected
     * reaction confirms, the end of the window expires, and anything else is
     * dropped.
     */
    method ResolveGate(g: Gate, e: GateEvent) returns (next: Gate)
      requires Valid()
      requires g.Pending? ==> g.suggestion.guild.Some?
      modifies this`files, this`suggestors, this`effects
      ensures Valid()
      ensures var out := ResolveSpec(old(files), old(suggestors), g, e);
              files == out.files && suggestors == out.suggestors
              && effects == old(effects) + out.emitted && next == out.gate
    {
      next := g;
      if !g.Pending? {
        return;
      }
      var msg := g.suggestion;
      var collected := false;
      if e.Reacted? {
        collected := e.emoji == Check && e.user == msg.author.id;
      }
      if collected {
        next := Confirmed(msg, g.prompt);
        effects := effects + [ThankPrompt(g.prompt)];
        HandleSubmission(msg, Suggestion);
        AddUserToList(msg.author);
        effects := effects + [DeleteMessage(g.prompt)];
      } else if e.TimedOut? {
        next := Expired(msg, g.prompt);
        effects := effects + [DeleteMessage(g.prompt)];
        effects := effects + [DeleteMessage(msg.id)];
      }
    }

    /** `validateSubmission`: the flags are worked out step by step, then acted on. */
    method ValidateSubmission(m: Message, target: Option<Message>, prompt: Snowflake) returns (g: Gate)
      requires Valid() && m.guild.Some?
      requires target.Some? ==> target.value.guild.Some?
      modifies this`files, this`effects
      ensures Valid()
      ensures var out := ValidateSpec(cfg, old(files), old(suggestors), m, target, prompt);
              files == out.files && suggestors == out.suggestors
              && effects == old(effects) + out.emitted && g == out.gate
    {
      g := Idle;
      if !FromValidChannel(cfg, m) {
        return;
      }
      if m.mentionedRoles.None? {
        return;
      }
      var roles := m.mentionedRoles.value;
      var submission := false;
      var bug := false;
      if cfg.roleSuggestionId in roles {
        submission := true;
      }
      if cfg.roleBugId in roles {
        bug := true;
      }
      if !(submission || bug) {
        return;
      }
      var above := ParseAbove(m.content);
      if above.Some? {
        effects := effects + [DeleteMessage(m.id)];
        if target.Some? {
          HandleFlagged(target.value, bug, submission);
          assert effects == old(effects) + ([DeleteMessage(m.id)] + FlaggedEffects(target.value, bug, submission));
        }
        return;
      }
      HandleFlagged(m, bug, false);
      if submission {
        g := ConfirmSuggestion(m, prompt);
        ghost var c := ConfirmSpec(RecordFlagged(old(files), m, bug, false), suggestors, m, prompt);
        assert effects == old(effects) + (FlaggedEffects(m, bug, false) + c.emitted);
      }
    }

    /** The `message` handler. */
    method OnMessage(m: Message, target: Option<Message>, prompt: Snowflake) returns (g: Gate)
      requires Valid()
      requires target.Some? ==> target.value.guild.Some?
      modifies this`files, this`effects
      ensures Valid()
      ensures var out := MessageSpec(cfg, old(files), old(suggestors), m, target, prompt);
              files == out.files && suggestors == out.suggestors
              && effects == old(effects) + out.emitted && g == out.gate
    {
      if m.author.bot {
        g := Idle;
        return;
      }
      if m.guild.None? {
        g := Idle;
        return;
      }
      g := ValidateSubmission(m, target, prompt);
    }

    /** The `messageDelete` handler. */
    method OnMessageDelete(m: Message)
      requires Valid()
      modifies this`files, this`effects
      ensures Valid()
      ensures var out := DeleteSpec(cfg, old(files), old(suggestors), m);
              files == out.files && effects == old(effects) + out.emitted
    {
      if !FromValidChannel(cfg, m) {
        return;
      }
      ScanAndRemoveFile(m.id);
    }

    /** The ❌ handler; `member` is the reactor as a guild member, or null. */
    method OnReactionAdd(r: Reaction, member: Member?)
      requires Valid()
      modifies this`files, this`effects
      ensures Valid()
      ensures var out := RejectSpec(cfg, old(files), old(suggestors), r,
                                    if member == null then None else Some(member.roles));
              files == out.files && effects == old(effects) + out.emitted
    {
      if r.partial && !r.fetchOk {
        return;
      }
      if r.reactor.bot {
        return;
      }
      if !FromValidChannel(cfg, r.message) {
        return;
      }
      if r.emoji != Cross {
        return;
      }
      if member == null {
        return;
      }
      if Marker !in r.present {
        return;
      }
      var allowedToRemove := r.message.author.id == r.reactor.id;
      allowedToRemove := allowedToRemove || exists role :: role in member.roles && role in cfg.rolesThatCanRemoveSubmissions;
      if !allowedToRemove {
        return;
      }
      effects := effects + [ClearReactions(r.message.id)];
      ScanAndRemoveFile(r.message.id);
    }
  }
}
