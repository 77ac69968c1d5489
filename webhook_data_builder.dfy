/**
  `WebhookDataBuilder`: a builder whose setters record the parts of a webhook
  message and whose `build()` turns them into the JSON object sent to the
  platform; and `WebhookData`, the built object, which collects file
  attachments and indexes them.

  The platform's own values (embeds, action rows, ComponentV2 objects, the
  inherited allowed-mentions settings, files) are opaque here; the JSON
  output is a map from key to an abstract `Value`.
 */
module WebhookDataBuilder {
  import opened JavaLang
  import opened MessageFlags

  /** A `MessageEmbed`, opaque. */
  datatype Embed = Embed(tag: nat)

  /** An `ActionRow`, opaque. */
  datatype ActionRow = ActionRow(tag: nat)

  /** A ComponentV2 `DataObject`, opaque. */
  datatype ComponentV2 = ComponentV2(tag: nat)

  /** The `AllowedMentionsImpl` settings the builder inherits, opaque. */
  datatype AllowedMentions = AllowedMentions(tag: nat)

  /** A JSON value of the payload; the platform's objects appear by their `toData()`. */
  datatype Value =
    | Str(text: string)
    | Num(n: int)
    | Int32(bits: bv32)          // a Java Integer, by its 32 bits
    | Arr(items: seq<Value>)
    | Obj(fields: map<string, Value>)
    | EmbedData(embed: Embed)
    | RowData(row: ActionRow)
    | ComponentData(component: ComponentV2)
    | MentionsData(mentions: AllowedMentions)

  /** The top-level keys of the webhook object. */
  datatype Key =
    | ThreadName | Username | AvatarUrl | Content | Embeds | Components | Flags | AllowedMentionsKey | Attachments
  {
    /** The key as it appears in the JSON. */
    function Name(): string {
      match this
      case ThreadName => "thread_name"
      case Username => "username"
      case AvatarUrl => "avatar_url"
      case Content => "content"
      case Embeds => "embeds"
      case Components => "components"
      case Flags => "flags"
      case AllowedMentionsKey => "allowed_mentions"
      case Attachments => "attachments"
    }
  }

  /** Distinct keys have distinct JSON names, so a map over `Key` is a map over the names. */
  lemma KeyNamesDistinct(a: Key, b: Key)
    ensures a.Name() == b.Name() ==> a == b
  {
    if a != b {
      assert |a.Name()| != |b.Name()| || a.Name()[0] != b.Name()[0];
    }
  }

  /** `Character.isWhitespace`. */
  predicate IsWhitespace(c: char) {
    || c == ' ' || c == '\t' || c == '\n' || c == '\U{000B}' || c == '\U{000C}' || c == '\r'
    || '\U{001C}' <= c <= '\U{001F}'
    || c == '\U{1680}'
    || ('\U{2000}' <= c <= '\U{200A}' && c != '\U{2007}')
    || c == '\U{2028}' || c == '\U{2029}' || c == '\U{205F}' || c == '\U{3000}'
  }

  /** `StringUtils.isNotBlank`: not null, and some character is not whitespace. */
  predicate IsNotBlank(s: Option<string>) {
    s.Some? && exists i :: 0 <= i < |s.value| && !IsWhitespace(s.value[i])
  }

  /** The embeds that are not null, in their order. */
  function Compact(embeds: seq<Option<Embed>>): (r: seq<Embed>)
    ensures |r| <= |embeds|
    ensures forall e :: e in r <==> Some(e) in embeds
    decreases |embeds|
  {
    if embeds == [] then []
    else
      var rest := Compact(embeds[1..]);
      assert forall x :: x in embeds[1..] ==> x in embeds;
      assert forall x :: x in embeds ==> x == embeds[0] || x in embeds[1..];
      match embeds[0]
      case None => rest
      case Some(e) => [e] + rest
  }

  /** Compacting is done piece by piece, so the order of the embeds is kept. */
  lemma {:induction false} CompactAppend(a: seq<Option<Embed>>, b: seq<Option<Embed>>)
    ensures Compact(a + b) == Compact(a) + Compact(b)
    decreases |a|
  {
    if a == [] {
      assert a + b == b;
    } else {
      assert (a + b)[0] == a[0];
      assert (a + b)[1..] == a[1..] + b;
      CompactAppend(a[1..], b);
    }
  }

  /** Without null embeds nothing is dropped. */
  lemma {:induction false} CompactOfPresent(embeds: seq<Embed>)
    ensures Compact(seq(|embeds|, i requires 0 <= i < |embeds| => Some(embeds[i]))) == embeds
    decreases |embeds|
  {
    if embeds != [] {
      var wrapped := seq(|embeds|, i requires 0 <= i < |embeds| => Some(embeds[i]));
      assert wrapped[1..] == seq(|embeds[1..]|, i requires 0 <= i < |embeds[1..]| => Some(embeds[1..][i]));
      CompactOfPresent(embeds[1..]);
    }
  }

  function EmbedValues(embeds: seq<Embed>): (r: seq<Value>)
    ensures |r| == |embeds| && forall i :: 0 <= i < |embeds| ==> r[i] == EmbedData(embeds[i])
  {
    seq(|embeds|, i requires 0 <= i < |embeds| => EmbedData(embeds[i]))
  }

  function RowValues(rows: seq<ActionRow>): (r: seq<Value>)
    ensures |r| == |rows| && forall i :: 0 <= i < |rows| ==> r[i] == RowData(rows[i])
  {
    seq(|rows|, i requires 0 <= i < |rows| => RowData(rows[i]))
  }

  function ComponentValues(components: seq<ComponentV2>): (r: seq<Value>)
    ensures |r| == |components| && forall i :: 0 <= i < |components| ==> r[i] == ComponentData(components[i])
  {
    seq(|components|, i requires 0 <= i < |components| => ComponentData(components[i]))
  }

  /** What the builder has recorded. */
  datatype BuilderState = BuilderState(
    threadName: Option<string>,
    username: Option<string>,
    avatarUrl: Option<string>,
    content: Option<string>,
    embeds: Option<seq<Option<Embed>>>,
    components: Option<seq<ActionRow>>,
    componentsV2: Option<seq<ComponentV2>>,
    flags: IntegerFlags,
    suppressMentions: bool,
    forceComponentV2: bool,
    mentions: AllowedMentions)

  /** The `allowed_mentions` object that suppresses every mention: `{"parse": []}`. */
  const NO_MENTIONS: Value := Obj(map["parse" := Arr([])])

  /** The `components` array: ComponentV2 objects when forced and set, else the action rows, else empty. */
  function ComponentsArray(s: BuilderState): (v: Value)
    ensures s.forceComponentV2 && s.componentsV2.Some? ==> v == Arr(ComponentValues(s.componentsV2.value))
    ensures !(s.forceComponentV2 && s.componentsV2.Some?) && s.components.Some? ==> v == Arr(RowValues(s.components.value))
    ensures !(s.forceComponentV2 && s.componentsV2.Some?) && s.components.None? ==> v == Arr([])
  {
    if s.forceComponentV2 && s.componentsV2.Some? then Arr(ComponentValues(s.componentsV2.value))
    else if s.components.Some? then Arr(RowValues(s.components.value))
    else Arr([])
  }

  /**
    The first puts of `build()`: `thread_name`, `username` and `avatar_url`
    appear exactly when set, `content` exactly when not blank.
   */
  function HeaderFields(s: BuilderState): (h: map<Key, Value>)
    ensures forall k :: k in h ==> k == ThreadName || k == Username || k == AvatarUrl || k == Content
    ensures ThreadName in h <==> s.threadName.Some?
    ensures ThreadName in h ==> h[ThreadName] == Str(s.threadName.value)
    ensures Username in h <==> s.username.Some?
    ensures Username in h ==> h[Username] == Str(s.username.value)
    ensures AvatarUrl in h <==> s.avatarUrl.Some?
    ensures AvatarUrl in h ==> h[AvatarUrl] == Str(s.avatarUrl.value)
    ensures Content in h <==> IsNotBlank(s.content)
    ensures Content in h ==> h[Content] == Str(s.content.value)
  {
    var withThread: map<Key, Value> := if s.threadName.Some? then map[ThreadName := Str(s.threadName.value)] else map[];
    var withUser := if s.username.Some? then withThread[Username := Str(s.username.value)] else withThread;
    var withAvatar := if s.avatarUrl.Some? then withUser[AvatarUrl := Str(s.avatarUrl.value)] else withUser;
    if IsNotBlank(s.content) then withAvatar[Content := Str(s.content.value)] else withAvatar
  }

  /** The later puts of `build()`, on top of the header fields `h`. */
  function BodyFields(s: BuilderState, h: map<Key, Value>): map<Key, Value> {
    var withEmbeds :=
      if s.embeds.Some? && !s.forceComponentV2 then h[Embeds := Arr(EmbedValues(Compact(s.embeds.value)))]
      else h;
    var withComponents :=
      if s.components.Some? || s.componentsV2.Some? then withEmbeds[Components := ComponentsArray(s)]
      else withEmbeds;
    var withFlags := if s.flags.Bits? then withComponents[Flags := Int32(s.flags.value)] else withComponents;
    withFlags[AllowedMentionsKey := if s.suppressMentions then NO_MENTIONS else MentionsData(s.mentions)]
  }

  /** The later puts touch only `embeds`, `components`, `flags` and `allowed_mentions`. */
  lemma BodyFieldsKeep(s: BuilderState, h: map<Key, Value>, k: Key)
    requires k != Embeds && k != Components && k != Flags && k != AllowedMentionsKey
    ensures k in BodyFields(s, h) <==> k in h
    ensures k in h ==> BodyFields(s, h)[k] == h[k]
  {
  }

  /** `build()`: the JSON object of the webhook message, a function of the builder's state. */
  function BuildData(s: BuilderState): (data: map<Key, Value>)
    ensures AllowedMentionsKey in data
    ensures data[AllowedMentionsKey] == if s.suppressMentions then NO_MENTIONS else MentionsData(s.mentions)
    ensures Attachments !in data
  {
    var h := HeaderFields(s);
    BodyFieldsKeep(s, h, Attachments);
    BodyFields(s, h)
  }

  /** The later puts of `build()` leave each header key as `HeaderFields` set it. */
  lemma BuildDataHeaders(s: BuilderState, k: Key)
    requires k == ThreadName || k == Username || k == AvatarUrl || k == Content
    ensures k in BuildData(s) <==> k in HeaderFields(s)
    ensures k in BuildData(s) ==> BuildData(s)[k] == HeaderFields(s)[k]
  {
    BodyFieldsKeep(s, HeaderFields(s), k);
  }

  /**
    `embeds` appears exactly when embeds are set and ComponentV2 is not
    forced, and holds the non-null embeds in order; `components` appears
    exactly when either component list is set.
   */
  lemma BuildDataBody(s: BuilderState)
    ensures var data := BuildData(s);
      && (Embeds in data <==> s.embeds.Some? && !s.forceComponentV2)
      && (Embeds in data ==> data[Embeds] == Arr(EmbedValues(Compact(s.embeds.value))))
      && (Components in data <==> s.components.Some? || s.componentsV2.Some?)
      && (Components in data ==> data[Components] == ComponentsArray(s))
  {
    var h := HeaderFields(s);
    assert Embeds !in h && Components !in h;
    assert BuildData(s) == BodyFields(s, h);
  }

  /** `flags` appears exactly when a flag setter was called, with the accumulated bits. */
  lemma BuildDataFlags(s: BuilderState)
    ensures var data := BuildData(s);
      && (Flags in data <==> s.flags.Bits?)
      && (Flags in data ==> data[Flags] == Int32(s.flags.value))
  {
    var h := HeaderFields(s);
    assert Flags !in h;
    assert BuildData(s) == BodyFields(s, h);
  }

  /** A fresh builder's state. */
  function Fresh(mentions: AllowedMentions): BuilderState {
    BuilderState(None, None, None, None, None, None, None, Unset, false, false, mentions)
  }

  /** A fresh builder builds an object holding only `allowed_mentions`. */
  lemma FreshBuild(mentions: AllowedMentions)
    ensures BuildData(Fresh(mentions)) == map[AllowedMentionsKey := MentionsData(mentions)]
  {
    var data := BuildData(Fresh(mentions));
    assert data.Keys == {AllowedMentionsKey};
  }

  /** Forcing ComponentV2 drops the embeds and sends the ComponentV2 list in place of the action rows. */
  lemma ForcedComponentV2Build(s: BuilderState, v2: seq<ComponentV2>)
    requires s.forceComponentV2 && s.componentsV2 == Some(v2)
    ensures Embeds !in BuildData(s)
    ensures BuildData(s)[Components] == Arr(ComponentValues(v2))
  {
  }

  /** The documented usage: content "Hello, Discord!" and suppressed notifications. */
  lemma HelloExample(mentions: AllowedMentions)
    ensures var s := Fresh(mentions).(content := Some("Hello, Discord!"), flags := Bits(SUPPRESS_NOTIFICATIONS));
      BuildData(s) == map[Content := Str("Hello, Discord!"), Flags := Int32(0x1000), AllowedMentionsKey := MentionsData(mentions)]
  {
    var s := Fresh(mentions).(content := Some("Hello, Discord!"), flags := Bits(SUPPRESS_NOTIFICATIONS));
    assert !IsWhitespace(s.content.value[0]);
    var data := BuildData(s);
    assert data.Keys == {Content, Flags, AllowedMentionsKey};
  }

  /** A whitespace-only content is blank and is left out. */
  lemma BlankContentExample(mentions: AllowedMentions)
    ensures Content !in BuildData(Fresh(mentions).(content := Some(" \t\n")))
    ensures Content !in BuildData(Fresh(mentions).(content := Some("")))
  {
    var blank := " \t\n";
    assert forall i :: 0 <= i < |blank| ==> IsWhitespace(blank[i]);
  }

  /** The builder. */
  class Builder {
    var threadName: Option<string>
    var username: Option<string>
    var avatarUrl: Option<string>
    var content: Option<string>
    var embeds: Option<seq<Option<Embed>>>
    var components: Option<seq<ActionRow>>
    var componentsV2: Option<seq<ComponentV2>>
    var flags: IntegerFlags
    var suppressMentions: bool
    var forceComponentV2: bool
    /** The inherited `AllowedMentionsImpl` settings. */
    var mentions: AllowedMentions

    function State(): BuilderState
      reads this
    {
      BuilderState(threadName, username, avatarUrl, content, embeds, components, componentsV2,
                   flags, suppressMentions, forceComponentV2, mentions)
    }

    /** `new WebhookDataBuilder()`: everything null or false. */
    constructor(mentions: AllowedMentions)
      ensures State() == Fresh(mentions)
    {
      threadName := None;
      username := None;
      avatarUrl := None;
      content := None;
      embeds := None;
      components := None;
      componentsV2 := None;
      flags := Unset;
      suppressMentions := false;
      forceComponentV2 := false;
      this.mentions := mentions;
    }

    method SetWebhookAvatarUrl(url: Option<string>)
      modifies this
      ensures State() == old(State()).(avatarUrl := url)
    {
      avatarUrl := url;
    }

    method SetThreadName(name: Option<string>)
      modifies this
      ensures State() == old(State()).(threadName := name)
    {
      threadName := name;
    }

    method SetUsername(name: Option<string>)
      modifies this
      ensures State() == old(State()).(username := name)
    {
      username := name;
    }

    method SetContent(text: Option<string>)
      modifies this
      ensures State() == old(State()).(content := text)
    {
      content := text;
    }

    method SetEmbeds(list: Option<seq<Option<Embed>>>)
      modifies this
      ensures State() == old(State()).(embeds := list)
    {
      embeds := list;
    }

    method SetComponents(rows: Option<seq<ActionRow>>)
      modifies this
      ensures State() == old(State()).(components := rows)
    {
      components := rows;
    }

    method SetComponentsV2(list: Option<seq<ComponentV2>>)
      modifies this
      ensures State() == old(State()).(componentsV2 := list)
    {
      componentsV2 := list;
    }

    /** `suppressNotifications()`: set bit 12, keep the other bits. */
    method SuppressNotifications()
      modifies this
      ensures State() == old(State()).(flags := SetFlag(old(flags), SUPPRESS_NOTIFICATIONS))
    {
      if flags.Bits? {
        flags := Bits(flags.value | SUPPRESS_NOTIFICATIONS);
      } else {
        flags := Bits(SUPPRESS_NOTIFICATIONS);
      }
    }

    /** `forceComponentV2()`: set the force flag and bit 15, keep the other bits. */
    method ForceComponentV2()
      modifies this
      ensures State() == old(State()).(forceComponentV2 := true, flags := SetFlag(old(flags), IS_COMPONENTS_V2))
    {
      forceComponentV2 := true;
      if flags.Bits? {
        flags := Bits(flags.value | IS_COMPONENTS_V2);
      } else {
        flags := Bits(IS_COMPONENTS_V2);
      }
    }

    /** `suppressMentions()`. */
    method SuppressMentions()
      modifies this
      ensures State() == old(State()).(suppressMentions := true)
    {
      suppressMentions := true;
    }

    /** `build()`: a new `WebhookData` holding the built object and no attachments. */
    method Build() returns (w: WebhookData)
      ensures fresh(w)
      ensures w.data == BuildData(State())
      ensures w.attachments.None?
    {
      w := new WebhookData(BuildData(State()));
    }
  }

  /** A `java.io.File` as `addFile` sees it. */
  datatype FileRef = FileRef(name: string, present: bool, isDirectory: bool)

  /** The entry `{"id": index, "filename": name}` of the `attachments` array. */
  function AttachmentEntry(index: nat, file: FileRef): Value {
    Obj(map["id" := Num(index), "filename" := Str(file.name)])
  }

  /** The built webhook object and the files added to it. */
  class WebhookData {
    var data: map<Key, Value>
    var attachments: Option<seq<FileRef>>

    constructor(data: map<Key, Value>)
      ensures this.data == data && attachments.None?
    {
      this.data := data;
      attachments := None;
    }

    /**
      `addFile(file)`: a directory, then a missing file, is an
      IllegalArgumentException that changes nothing; otherwise the file is
      appended to the attachments.
     */
    method AddFile(file: FileRef) returns (r: Result<()>)
      modifies this
      ensures file.isDirectory ==> r == Err(IllegalArgument(IsDirectory))
      ensures !file.isDirectory && !file.present ==> r == Err(IllegalArgument(FileMissing))
      ensures r.Err? ==> attachments == old(attachments)
      ensures r.Ok? <==> !file.isDirectory && file.present
      ensures r.Ok? ==> attachments == Some((if old(attachments).Some? then old(attachments).value else []) + [file])
      ensures data == old(data)
    {
      if file.isDirectory {
        return Err(IllegalArgument(IsDirectory));
      }
      if !file.present {
        return Err(IllegalArgument(FileMissing));
      }
      if attachments.None? {
        assert [] + [file] == [file];
        attachments := Some([file]);
      } else {
        attachments := Some(attachments.value + [file]);
      }
      return Ok(());
    }

    /**
      `putAllAttachments()`: without attachments, null and nothing written;
      otherwise the `attachments` key gets one entry per file, numbered from 0
      in order, and the file names are returned in the same order.
     */
    method PutAllAttachments() returns (index: Option<seq<string>>)
      modifies this
      ensures attachments == old(attachments)
      ensures old(attachments).None? ==> index.None? && data == old(data)
      ensures old(attachments).Some? ==>
        var files := old(attachments).value;
        && index.Some? && |index.value| == |files|
        && (forall i :: 0 <= i < |files| ==> index.value[i] == files[i].name)
        && data.Keys == old(data).Keys + {Attachments}
        && (forall k :: k in data && k != Attachments ==> data[k] == old(data)[k])
        && data[Attachments].Arr?
        && |data[Attachments].items| == |files|
        && (forall i :: 0 <= i < |files| ==> data[Attachments].items[i] == AttachmentEntry(i, files[i]))
    {
      if attachments.None? {
        return None;
      }
      var files := attachments.value;
      var names: seq<string> := [];
      var entries: seq<Value> := [];
      var i := 0;
      while i < |files|
        invariant 0 <= i <= |files|
        invariant |names| == i && |entries| == i
        invariant forall j :: 0 <= j < i ==> names[j] == files[j].name
        invariant forall j :: 0 <= j < i ==> entries[j] == AttachmentEntry(j, files[j])
      {
        names := names + [files[i].name];
        entries := entries + [AttachmentEntry(i, files[i])];
        i := i + 1;
      }
      data := data[Attachments := Arr(entries)];
      return Some(names);
    }
  }
}
