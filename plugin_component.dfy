/**
  `PluginComponent`: the validation gate for components that come back from
  the platform. Construction parses the component's `custom_id`, refuses ids
  that do not match, that name another plugin, or whose id or user field is
  not a snowflake; afterwards the accessors read the parsed fields.
 */
module PluginComponent {
  import opened JavaLang
  import opened IDPattern
  import opened ComponentProvider

  /** A platform component as validation sees it: its `custom_id`, which link buttons lack. */
  datatype Component = Component(customId: Option<string>)

  /**
    JDA's `Checks.isSnowflake`: not empty, at most 20 characters, all decimal
    digits. (20 digits can exceed 2^64 - 1.)
   */
  predicate IsSnowflake(s: string) {
    0 < |s| <= 20 && IsDigits(s)
  }

  /** The checks construction makes of a raw id, for the plugin named pluginName. */
  predicate IsOwnedBy(pluginName: string, rawID: string) {
    var parsed := ParseCustomID(rawID);
    && parsed.Some?
    && parsed.value.plugin == pluginName
    && IsSnowflake(parsed.value.id)
    && IsSnowflake(parsed.value.user)
  }

  /** A validated component: the component, its raw id and the parsed groups of that id. */
  datatype PluginComponent = PluginComponent(component: Component, rawID: string, dataID: Fields)
  {
    /** What construction establishes and every accessor relies on. */
    predicate Valid() {
      && component.customId == Some(rawID)
      && ParseCustomID(rawID) == Some(dataID)
      && IsSnowflake(dataID.id)
      && IsSnowflake(dataID.user)
    }

    /** `get()`. */
    function Get(): (c: Component)
      requires Valid()
      ensures c.customId == Some(GetRawID())
    {
      component
    }

    /** `getID()`: the id group of the raw id, a snowflake. */
    function GetID(): (id: string)
      requires Valid()
      ensures IsSnowflake(id)
      ensures ParseCustomID(GetRawID()).value.id == id
    {
      dataID.id
    }

    /**
      `getIDLong()`: `Long.parseUnsignedLong` of the id. The snowflake check
      admits 20-digit ids above 2^64 - 1, for which it throws NumberFormatException.
     */
    function GetIDLong(): (r: Result<nat>)
      requires Valid()
      ensures r.Ok? <==> DigitsValue(GetID()) < TWO_TO_64
      ensures r.Ok? ==> r.value == DigitsValue(GetID())
      ensures r.Err? ==> r.error == NumberFormat
    {
      ParseUnsignedLong(dataID.id)
    }

    /** `getPayload()`: the payload group, absent when the id had only four fields. */
    function GetPayload(): (p: Option<string>)
      requires Valid()
      ensures ParseCustomID(GetRawID()).value.payload == p
      ensures p.Some? ==> IsLine(p.value)
    {
      ParseSound(rawID);
      dataID.payload
    }

    /**
      `getIntPayload()`: null without a payload, else `Integer.valueOf` of it,
      which throws NumberFormatException for text that is not an `int`.
     */
    function GetIntPayload(): (r: Result<Option<Int>>)
      requires Valid()
      ensures r == Ok(None) <==> GetPayload().None?
      ensures r.Err? <==> GetPayload().Some? && ParseInt(GetPayload().value).Err?
      ensures r.Err? ==> r.error == NumberFormat
      ensures r.Ok? && r.value.Some? ==> ParseInt(GetPayload().value) == Ok(r.value.value)
    {
      match dataID.payload
      case None => Ok(None)
      case Some(text) =>
        match ParseInt(text)
        case Ok(v) => Ok(Some(v))
        case Err(e) => Err(e)
    }

    /** `getType()`: the type group of the raw id, a word. */
    function GetType(): (kind: string)
      requires Valid()
      ensures IsWord(kind)
      ensures ParseCustomID(GetRawID()).value.kind == kind
    {
      ParseSound(rawID);
      dataID.kind
    }

    /** `getUserID()`: the user group of the raw id, a snowflake. */
    function GetUserID(): (user: string)
      requires Valid()
      ensures IsSnowflake(user)
      ensures ParseCustomID(GetRawID()).value.user == user
    {
      dataID.user
    }

    /** `getUserIDLong()`: `Long.parseUnsignedLong` of the user, as for the id. */
    function GetUserIDLong(): (r: Result<nat>)
      requires Valid()
      ensures r.Ok? <==> DigitsValue(GetUserID()) < TWO_TO_64
      ensures r.Ok? ==> r.value == DigitsValue(GetUserID())
      ensures r.Err? ==> r.error == NumberFormat
    {
      ParseUnsignedLong(dataID.user)
    }

    /** `getRawID()`: the component's `custom_id`, unchanged. */
    function GetRawID(): (raw: string)
      requires Valid()
      ensures component.customId == Some(raw)
    {
      rawID
    }
  }

  /**
    The constructor `PluginComponent(plugin, component)` for a plugin named
    pluginName. A null component, an id that does not parse, another plugin's
    name and a non-snowflake id or user are IllegalArgumentExceptions. A
    component without a `custom_id` makes `parseCustomID(null)` throw
    NullPointerException.
   */
  function New(pluginName: string, component: Option<Component>): (r: Result<PluginComponent>)
    ensures r.Ok? <==>
      component.Some? && component.value.customId.Some? && IsOwnedBy(pluginName, component.value.customId.value)
    ensures r.Ok? ==>
      r.value.Valid() && r.value.component == component.value && r.value.dataID.plugin == pluginName
    ensures component.None? ==> r == Err(IllegalArgument(NullComponent))
    ensures component.Some? && component.value.customId.None? ==> r == Err(NullPointer)
    ensures (component.Some? && component.value.customId.Some?
             && ParseCustomID(component.value.customId.value).None?) ==> r == Err(IllegalArgument(NotFromPlugin))
    ensures component.Some? && component.value.customId.Some? && r.Err? ==> r.error.IllegalArgument?
  {
    if component.None? then Err(IllegalArgument(NullComponent))
    else
      match component.value.customId
      case None => Err(NullPointer)
      case Some(rawID) =>
        match ParseCustomID(rawID)
        case None => Err(IllegalArgument(NotFromPlugin))
        case Some(dataID) =>
          if dataID.plugin != pluginName then Err(IllegalArgument(InvalidOwner))
          else if !IsSnowflake(dataID.id) then Err(IllegalArgument(NotSnowflake))
          else if !IsSnowflake(dataID.user) then Err(IllegalArgument(NotSnowflake))
          else Ok(PluginComponent(component.value, rawID, dataID))
  }

  /**
    `getOpt(plugin, component)`: empty exactly when the constructor throws
    IllegalArgumentException, the constructed component when it succeeds; the
    NullPointerException of a component without `custom_id` is not caught.
   */
  function GetOpt(pluginName: string, component: Option<Component>): (r: Result<Option<PluginComponent>>)
    ensures r == Ok(None) <==>
      component.None? || (component.value.customId.Some? && !IsOwnedBy(pluginName, component.value.customId.value))
    ensures r.Ok? && r.value.Some? ==>
      r.value.value.Valid() && component.Some? && r.value.value.component == component.value
    ensures r.Err? ==> r.error == NullPointer && component.Some? && component.value.customId.None?
  {
    var constructed := New(pluginName, component);
    if constructed.Ok? then Ok(Some(constructed.value))
    else if constructed.error.IllegalArgument? then
      assert component.Some? ==> component.value.customId.Some?;
      Ok(None)
    else
      assert component.Some? && component.value.customId.None?;
      Err(constructed.error)
  }

  /**
    End-to-end round trip without payload: an id minted by `newComponentID`
    for this plugin validates, and its accessors give back the type, the
    unsigned id and user (as text and as numbers) and no payload.
   */
  lemma ValidateMintedID(pluginName: string, kind: string, id: Long, user: Long)
    requires IsWord(pluginName) && IsWord(kind)
    requires NewComponentID(pluginName, kind, Some(id), Some(user)).Ok?
    ensures var raw := NewComponentID(pluginName, kind, Some(id), Some(user)).value;
      var r := New(pluginName, Some(Component(Some(raw))));
      && r.Ok?
      && r.value.GetRawID() == raw
      && r.value.GetType() == kind
      && r.value.GetID() == UnsignedString(id)
      && r.value.GetUserID() == UnsignedString(user)
      && r.value.GetIDLong() == Ok(ToUnsigned(id))
      && r.value.GetUserIDLong() == Ok(ToUnsigned(user))
      && r.value.GetPayload() == None
      && r.value.GetIntPayload() == Ok(None)
  {
    ParseNewComponentID(pluginName, kind, id, user);
    ParseUnsignedOfUnsignedString(id);
    ParseUnsignedOfUnsignedString(user);
  }

  /**
    End-to-end round trip with payload: a payload whose text has no line
    terminator and no final '/' comes back verbatim from `getPayload()`.
   */
  lemma ValidateMintedIDWithPayload(pluginName: string, kind: string, id: Long, user: Long, payload: Payload)
    requires IsWord(pluginName) && IsWord(kind)
    requires NewComponentIDWithPayload(pluginName, kind, Some(id), Some(user), Some(payload)).Ok?
    requires PayloadValue(Some(payload)).Some?
    requires IsLine(PayloadValue(Some(payload)).value) && !EndsWithSlash(PayloadValue(Some(payload)).value)
    ensures var raw := NewComponentIDWithPayload(pluginName, kind, Some(id), Some(user), Some(payload)).value;
      var r := New(pluginName, Some(Component(Some(raw))));
      && r.Ok?
      && r.value.GetType() == kind
      && r.value.GetIDLong() == Ok(ToUnsigned(id))
      && r.value.GetUserIDLong() == Ok(ToUnsigned(user))
      && r.value.GetPayload() == PayloadValue(Some(payload))
  {
    ParseNewComponentIDWithPayload(pluginName, kind, id, user, payload);
    ParseUnsignedOfUnsignedString(id);
    ParseUnsignedOfUnsignedString(user);
  }

  /** An `Integer` payload comes back from `getIntPayload()` as the same `int`. */
  lemma IntegerPayloadRoundTrip(pluginName: string, kind: string, id: Long, user: Long, v: Int)
    requires IsWord(pluginName) && IsWord(kind)
    requires NewComponentIDWithPayload(pluginName, kind, Some(id), Some(user), Some(IntegerPayload(v))).Ok?
    ensures var raw := NewComponentIDWithPayload(pluginName, kind, Some(id), Some(user), Some(IntegerPayload(v))).value;
      var r := New(pluginName, Some(Component(Some(raw))));
      r.Ok? && r.value.GetIntPayload() == Ok(Some(v))
  {
    NumberPayloadIsPlain(IntegerPayload(v));
    ValidateMintedIDWithPayload(pluginName, kind, id, user, IntegerPayload(v));
    ParseIntOfSignedString(v);
  }

  /** A `Long` payload comes back, read as unsigned, as the same 64 bits. */
  lemma LongPayloadRoundTrip(pluginName: string, kind: string, id: Long, user: Long, l: Long)
    requires IsWord(pluginName) && IsWord(kind)
    requires NewComponentIDWithPayload(pluginName, kind, Some(id), Some(user), Some(LongPayload(l))).Ok?
    ensures var raw := NewComponentIDWithPayload(pluginName, kind, Some(id), Some(user), Some(LongPayload(l))).value;
      var r := New(pluginName, Some(Component(Some(raw))));
      && r.Ok? && r.value.GetPayload().Some?
      && ParseUnsignedLong(r.value.GetPayload().value) == Ok(ToUnsigned(l))
  {
    NumberPayloadIsPlain(LongPayload(l));
    ValidateMintedIDWithPayload(pluginName, kind, id, user, LongPayload(l));
    ParseUnsignedOfUnsignedString(l);
  }

  /** An id minted for another plugin is refused with "Component ID is invalid". */
  lemma ForeignPluginRejected(pluginName: string, otherName: string, kind: string, id: Long, user: Long)
    requires IsWord(otherName) && IsWord(kind) && otherName != pluginName
    requires NewComponentID(otherName, kind, Some(id), Some(user)).Ok?
    ensures var raw := NewComponentID(otherName, kind, Some(id), Some(user)).value;
      && New(pluginName, Some(Component(Some(raw)))) == Err(IllegalArgument(InvalidOwner))
      && GetOpt(pluginName, Some(Component(Some(raw)))) == Ok(None)
  {
    ParseNewComponentID(otherName, kind, id, user);
  }

  /**
    The snowflake check is weaker than `getIDLong()`: an id of up to 20
    digits whose value is 2^64 or more validates, and then `getIDLong()`
    throws NumberFormatException while the other accessors succeed.
   */
  lemma OversizedIdValidates(pluginName: string, kind: string, id: string, user: string)
    requires IsWord(pluginName) && IsWord(kind) && IsSnowflake(id) && IsSnowflake(user)
    requires DigitsValue(id) >= TWO_TO_64
    ensures var raw := Render(Fields(pluginName, kind, id, user, None), false);
      var r := New(pluginName, Some(Component(Some(raw))));
      && r.Ok?
      && r.value.GetID() == id
      && r.value.GetIDLong() == Err(NumberFormat)
      && r.value.GetUserIDLong() == (if DigitsValue(user) < TWO_TO_64 then Ok(DigitsValue(user)) else Err(NumberFormat))
  {
    var f := Fields(pluginName, kind, id, user, None);
    DigitsAreWord(id);
    DigitsAreWord(user);
    ParseComplete(f, false);
    assert ParseCustomID(Render(f, false)) == Some(f);
  }

  /** Twenty 9s are 2^64 or more. */
  lemma NinesTooLarge()
    ensures IsSnowflake("99999999999999999999")
    ensures DigitsValue("99999999999999999999") >= TWO_TO_64
  {
    var nines := "99999999999999999999";
    DigitsValueLeading(nines);
    assert Pow10(5) == 100_000;
    Pow10Add(5, 5);
    Pow10Add(10, 9);
    assert Pow10(19) == 10_000_000_000_000_000_000;
  }

  /**
    The rendering of plugin "p", type "t", id twenty 9s and user "1" (the raw
    id `p/t/99999999999999999999/1`) validates, but `getIDLong()` throws.
   */
  lemma OversizedSnowflakeExample()
    ensures var r := New("p", Some(Component(Some(Render(Fields("p", "t", "99999999999999999999", "1", None), false)))));
      && r.Ok?
      && r.value.GetIDLong() == Err(NumberFormat)
      && r.value.GetUserIDLong() == Ok(1)
  {
    NinesTooLarge();
    assert IsWord("p") && IsWord("t") && IsSnowflake("1");
    assert DigitsValue("1") == 1;
    OversizedIdValidates("p", "t", "99999999999999999999", "1");
  }
}
