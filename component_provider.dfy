/**
  The two `newComponentID` overloads of `ComponentProvider`: they join the
  plugin name, the component type, the id and the user (both as unsigned
  decimal) and, in the second overload, a payload, with '/', and refuse a
  missing id or user, a null payload and a result over 100 characters.
 */
module ComponentProvider {
  import opened JavaLang
  import opened IDPattern

  /** The longest `custom_id` the platform accepts. */
  const MAX_CUSTOM_ID_LENGTH: nat := 100

  /** The payload argument of the second overload, by its runtime class. */
  datatype Payload =
    | LongPayload(l: Long)                // a java.lang.Long
    | IntegerPayload(i: Int)              // a java.lang.Integer (the other Numbers render alike)
    | OtherPayload(text: Option<string>)  // any other object, by what its toString() returns

  /** `payloadValue` in the source: a Long as unsigned decimal, anything else by toString(). */
  function PayloadValue(payload: Option<Payload>): Option<string> {
    match payload
    case None => None
    case Some(LongPayload(l)) => Some(UnsignedString(l))
    case Some(IntegerPayload(i)) => Some(SignedString(i))
    case Some(OtherPayload(text)) => text
  }

  /** The fields a call of either overload renders. */
  function MintedFields(pluginName: string, kind: string, id: Long, user: Long, payload: Option<string>): Fields {
    Fields(pluginName, kind, UnsignedString(id), UnsignedString(user), payload)
  }

  /** Java's `String.join("/", ...)` of the fields, left to right, is the grammar's rendering. */
  lemma JoinIsRender(f: Fields)
    ensures f.payload.None? ==>
      f.plugin + "/" + f.kind + "/" + f.id + "/" + f.user == Render(f, false)
    ensures f.payload.Some? ==>
      f.plugin + "/" + f.kind + "/" + f.id + "/" + f.user + "/" + f.payload.value == Render(f, false)
  {
    var t := Tail(f.payload, false);
    if f.payload.Some? {
      assert t == "/" + f.payload.value;
      assert f.user + "/" + f.payload.value == f.user + t;
    } else {
      assert t == [];
      assert f.user == f.user + t;
    }
    var userAndTail := f.user + t;
    assert f.id + "/" + userAndTail == f.id + ("/" + userAndTail);
    var afterKind := f.id + ("/" + userAndTail);
    assert f.kind + "/" + afterKind == f.kind + ("/" + afterKind);
    var afterPlugin := f.kind + ("/" + afterKind);
    assert f.plugin + "/" + afterPlugin == f.plugin + ("/" + afterPlugin);
  }

  /**
    `newComponentID(type, id, user)` for the plugin named pluginName: null id
    or user and an over-long result are IllegalArgumentExceptions; otherwise
    the result is the grammar's rendering of the four fields, no payload and
    no trailing '/', and is at most 100 characters long.
   */
  function NewComponentID(pluginName: string, kind: string, id: Option<Long>, user: Option<Long>): (r: Result<string>)
    ensures id.None? || user.None? ==> r == Err(IllegalArgument(NullIdOrUser))
    ensures id.Some? && user.Some? ==>
      var rendered := Render(MintedFields(pluginName, kind, id.value, user.value, None), false);
      && (|rendered| <= MAX_CUSTOM_ID_LENGTH ==> r == Ok(rendered))
      && (|rendered| > MAX_CUSTOM_ID_LENGTH ==> r == Err(IllegalArgument(TooLong)))
  {
    if id.None? || user.None? then Err(IllegalArgument(NullIdOrUser))
    else
      var componentID := pluginName + "/" + kind + "/" + UnsignedString(id.value) + "/" + UnsignedString(user.value);
      JoinIsRender(MintedFields(pluginName, kind, id.value, user.value, None));
      if |componentID| > MAX_CUSTOM_ID_LENGTH then Err(IllegalArgument(TooLong)) else Ok(componentID)
  }

  /**
    `newComponentID(type, id, user, payload)`: as the first overload, but a
    null payload (or one whose toString() is null) is an
    IllegalArgumentException, checked after id and user and before the
    length; the payload text is the fifth '/'-separated segment.
   */
  function NewComponentIDWithPayload(pluginName: string, kind: string, id: Option<Long>, user: Option<Long>,
                                     payload: Option<Payload>): (r: Result<string>)
    ensures id.None? || user.None? ==> r == Err(IllegalArgument(NullIdOrUser))
    ensures id.Some? && user.Some? && PayloadValue(payload).None? ==> r == Err(IllegalArgument(NullPayload))
    ensures id.Some? && user.Some? && PayloadValue(payload).Some? ==>
      var rendered := Render(MintedFields(pluginName, kind, id.value, user.value, PayloadValue(payload)), false);
      && (|rendered| <= MAX_CUSTOM_ID_LENGTH ==> r == Ok(rendered))
      && (|rendered| > MAX_CUSTOM_ID_LENGTH ==> r == Err(IllegalArgument(TooLong)))
  {
    if id.None? || user.None? then Err(IllegalArgument(NullIdOrUser))
    else
      var payloadValue := PayloadValue(payload);
      if payloadValue.None? then Err(IllegalArgument(NullPayload))
      else
        var componentID := pluginName + "/" + kind + "/" + UnsignedString(id.value) + "/"
          + UnsignedString(user.value) + "/" + payloadValue.value;
        JoinIsRender(MintedFields(pluginName, kind, id.value, user.value, payloadValue));
        if |componentID| > MAX_CUSTOM_ID_LENGTH then Err(IllegalArgument(TooLong)) else Ok(componentID)
  }

  lemma DigitsAreWord(s: string)
    requires |s| > 0 && IsDigits(s)
    ensures IsWord(s)
  {
    forall i | 0 <= i < |s| ensures IsWordChar(s[i]) {
      assert IsDigit(s[i]);
    }
  }

  /**
    Round trip without payload: when the plugin name and the type are words,
    parsing a minted id gives back the plugin, the type and the unsigned
    decimal id and user, and no payload.
   */
  lemma ParseNewComponentID(pluginName: string, kind: string, id: Long, user: Long)
    requires IsWord(pluginName) && IsWord(kind)
    requires NewComponentID(pluginName, kind, Some(id), Some(user)).Ok?
    ensures ParseCustomID(NewComponentID(pluginName, kind, Some(id), Some(user)).value)
      == Some(MintedFields(pluginName, kind, id, user, None))
  {
    DigitsAreWord(UnsignedString(id));
    DigitsAreWord(UnsignedString(user));
    ParseComplete(MintedFields(pluginName, kind, id, user, None), false);
  }

  /**
    Round trip with payload: a payload text without line terminators and
    without a final '/' comes back verbatim, inner '/' included.
   */
  lemma ParseNewComponentIDWithPayload(pluginName: string, kind: string, id: Long, user: Long, payload: Payload)
    requires IsWord(pluginName) && IsWord(kind)
    requires NewComponentIDWithPayload(pluginName, kind, Some(id), Some(user), Some(payload)).Ok?
    requires PayloadValue(Some(payload)).Some?
    requires IsLine(PayloadValue(Some(payload)).value) && !EndsWithSlash(PayloadValue(Some(payload)).value)
    ensures ParseCustomID(NewComponentIDWithPayload(pluginName, kind, Some(id), Some(user), Some(payload)).value)
      == Some(MintedFields(pluginName, kind, id, user, PayloadValue(Some(payload))))
  {
    DigitsAreWord(UnsignedString(id));
    DigitsAreWord(UnsignedString(user));
    ParseComplete(MintedFields(pluginName, kind, id, user, PayloadValue(Some(payload))), false);
  }

  /** Decimal renderings of numbers hold neither line terminators nor a final '/'. */
  lemma NumberPayloadIsPlain(payload: Payload)
    requires !payload.OtherPayload?
    ensures PayloadValue(Some(payload)).Some?
    ensures IsLine(PayloadValue(Some(payload)).value) && !EndsWithSlash(PayloadValue(Some(payload)).value)
  {
    var text := PayloadValue(Some(payload)).value;
    forall i | 0 <= i < |text| ensures !IsLineTerminator(text[i]) {
      if payload.IntegerPayload? && payload.i < 0 && i == 0 {
        assert text[0] == '-';
      } else if payload.IntegerPayload? && payload.i < 0 {
        assert text[i] == text[1..][i - 1];
        assert IsDigit(text[i]);
      } else {
        assert IsDigit(text[i]);
      }
    }
    if payload.IntegerPayload? && payload.i < 0 {
      assert text[|text| - 1] == text[1..][|text| - 2];
    }
  }

  /** The decimal texts of the worked example's numbers. */
  lemma ConfirmDigits()
    ensures UnsignedString(123) == "123" && UnsignedString(456) == "456" && SignedString(7) == "7"
  {
    assert Decimal(12) == "12";
    assert Decimal(45) == "45";
  }

  /** The worked example: plugin "mc_plugin", type "confirm", id 123, user 456. */
  lemma ConfirmExample()
    ensures NewComponentID("mc_plugin", "confirm", Some(123), Some(456)) == Ok("mc_plugin/confirm/123/456")
  {
    ConfirmDigits();
    assert "mc_plugin" + "/" + "confirm" + "/" + "123" + "/" + "456" == "mc_plugin/confirm/123/456";
  }

  /** The same id with the Integer payload 7 as its fifth segment. */
  lemma ConfirmPayloadExample()
    ensures NewComponentIDWithPayload("mc_plugin", "confirm", Some(123), Some(456), Some(IntegerPayload(7)))
      == Ok("mc_plugin/confirm/123/456/7")
  {
    ConfirmDigits();
    assert "mc_plugin" + "/" + "confirm" + "/" + "123" + "/" + "456" + "/" + "7" == "mc_plugin/confirm/123/456/7";
  }
}
