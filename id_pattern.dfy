/**
  The `custom_id` grammar of plugin components,

      ^(\w+)/(\w+)/(\w+)/(\w+)(?:/(.*?))?/?$

  read directly rather than through a regular-expression engine. The four
  word groups cannot give back characters (a `\w` can never match '/' or the
  end), so each is the maximal run of word characters before the next '/'.
  What follows the fourth group is either nothing, or '/' and a payload; the
  lazy payload group stops one character early when the text ends in '/',
  so one trailing '/' is dropped, and `.` refuses line terminators.
 */
module IDPattern {
  import opened JavaLang

  /** Java's `\w` without UNICODE_CHARACTER_CLASS: [A-Za-z0-9_]. */
  predicate IsWordChar(c: char) {
    'a' <= c <= 'z' || 'A' <= c <= 'Z' || '0' <= c <= '9' || c == '_'
  }

  /** A string matched by `\w+`. */
  predicate IsWord(s: string) {
    |s| > 0 && forall i :: 0 <= i < |s| ==> IsWordChar(s[i])
  }

  /** The characters Java's `.` does not match when DOTALL and UNIX_LINES are off. */
  predicate IsLineTerminator(c: char) {
    c == '\n' || c == '\r' || c == '\U{0085}' || c == '\U{2028}' || c == '\U{2029}'
  }

  /** A string matched by `.*`. */
  predicate IsLine(s: string) {
    forall i :: 0 <= i < |s| ==> !IsLineTerminator(s[i])
  }

  predicate EndsWithSlash(s: string) {
    |s| > 0 && s[|s| - 1] == '/'
  }

  /** The named groups of a match: plugin, type, id, user, and the payload when its group took part. */
  datatype Fields = Fields(plugin: string, kind: string, id: string, user: string, payload: Option<string>)

  /** What follows the user group: '/' and the payload when there is one, then an optional '/'. */
  function Tail(payload: Option<string>, trailingSlash: bool): string {
    (match payload case None => "" case Some(p) => "/" + p) + (if trailingSlash then "/" else "")
  }

  /**
    The fields joined by '/', followed by one '/' when trailingSlash: the
    strings the pattern accepts are exactly the renderings of well-formed
    fields (written right-nested, one group at a time, as the pattern reads them).
   */
  function Render(f: Fields, trailingSlash: bool): string {
    f.plugin + ("/" + (f.kind + ("/" + (f.id + ("/" + (f.user + Tail(f.payload, trailingSlash)))))))
  }

  /** Fields that the groups of the pattern can hold. */
  predicate WellFormed(f: Fields) {
    && IsWord(f.plugin) && IsWord(f.kind) && IsWord(f.id) && IsWord(f.user)
    && (f.payload.Some? ==> IsLine(f.payload.value))
  }

  /** The length of the longest prefix of s made of word characters. */
  function WordPrefix(s: string): (n: nat)
    ensures n <= |s|
    ensures forall i :: 0 <= i < n ==> IsWordChar(s[i])
    ensures n < |s| ==> !IsWordChar(s[n])
  {
    if s == [] || !IsWordChar(s[0]) then 0 else 1 + WordPrefix(s[1..])
  }

  /** One `\w+` group and the '/' after it: the group's text and the rest of the input. */
  function WordAndSlash(s: string): Option<(string, string)> {
    var n := WordPrefix(s);
    if 0 < n < |s| && s[n] == '/' then Some((s[..n], s[n + 1..])) else None
  }

  /**
    The tail `(?:/(.*?))?/?$` against the text after the fourth group: None
    when it does not match, Some(payload group) when it does.
   */
  function PayloadTail(rest: string): Option<Option<string>> {
    if rest == [] then Some(None)
    else if rest[0] != '/' then None
    else
      var text := rest[1..];
      var payload := if EndsWithSlash(text) then text[..|text| - 1] else text;
      if IsLine(payload) then Some(Some(payload)) else None
  }

  /** The fourth group and the tail after it. */
  function UserAndTail(s: string): Option<(string, Option<string>)> {
    var n := WordPrefix(s);
    if n == 0 then None
    else
      match PayloadTail(s[n..])
      case None => None
      case Some(payload) => Some((s[..n], payload))
  }

  /**
    `IDPattern.parseCustomID`: the groups of a whole-string match of the
    component pattern, or None (Java's null) when the string does not match.
   */
  function ParseCustomID(customId: string): Option<Fields> {
    match WordAndSlash(customId)
    case None => None
    case Some((plugin, afterPlugin)) =>
      match WordAndSlash(afterPlugin)
      case None => None
      case Some((kind, afterKind)) =>
        match WordAndSlash(afterKind)
        case None => None
        case Some((id, afterId)) =>
          match UserAndTail(afterId)
          case None => None
          case Some((user, payload)) => Some(Fields(plugin, kind, id, user, payload))
  }

  /** The word prefix of a word followed by a non-word character (or nothing) is that word. */
  lemma {:induction false} WordPrefixOfWord(w: string, rest: string)
    requires IsWord(w)
    requires rest == [] || !IsWordChar(rest[0])
    ensures WordPrefix(w + rest) == |w|
  {
    if |w| > 1 {
      assert (w + rest)[1..] == w[1..] + rest;
      WordPrefixOfWord(w[1..], rest);
    } else {
      assert (w + rest)[1..] == rest;
    }
  }

  lemma WordAndSlashOfWord(w: string, rest: string)
    requires IsWord(w)
    ensures WordAndSlash(w + ("/" + rest)) == Some((w, rest))
  {
    WordPrefixOfWord(w, "/" + rest);
    assert (w + ("/" + rest))[..|w|] == w;
    assert (w + ("/" + rest))[|w| + 1..] == rest;
  }

  lemma WordAndSlashSplits(s: string)
    requires WordAndSlash(s).Some?
    ensures var (w, rest) := WordAndSlash(s).value; IsWord(w) && s == w + ("/" + rest)
  {
    var n := WordPrefix(s);
    assert s == s[..n] + ("/" + s[n + 1..]);
  }

  /** Whatever the tail accepts is the Tail of the payload it yields, with or without a final '/'. */
  lemma PayloadTailSplits(rest: string)
    requires PayloadTail(rest).Some?
    ensures var payload := PayloadTail(rest).value;
      && (payload.Some? ==> IsLine(payload.value))
      && (rest == Tail(payload, false) || rest == Tail(payload, true))
  {
    if rest != [] {
      var text := rest[1..];
      assert rest == "/" + text;
      if EndsWithSlash(text) {
        assert text == text[..|text| - 1] + "/";
        assert rest == ("/" + text[..|text| - 1]) + "/";
      } else {
        assert rest == ("/" + text) + "";
      }
    }
  }

  /** A non-empty word prefix is a word. */
  lemma WordPrefixIsWord(s: string)
    requires WordPrefix(s) > 0
    ensures IsWord(s[..WordPrefix(s)])
  {
    var n := WordPrefix(s);
    forall i | 0 <= i < n ensures IsWordChar(s[..n][i]) {
      assert s[..n][i] == s[i];
    }
  }

  /** A string is its prefix followed by whatever its suffix equals. */
  lemma SplitAt(s: string, n: nat, t: string)
    requires n <= |s| && s[n..] == t
    ensures s == s[..n] + t
  {
    assert s == s[..n] + s[n..];
  }

  lemma UserAndTailSplits(s: string)
    requires UserAndTail(s).Some?
    ensures var (user, payload) := UserAndTail(s).value;
      && IsWord(user) && (payload.Some? ==> IsLine(payload.value))
      && (s == user + Tail(payload, false) || s == user + Tail(payload, true))
  {
    var n := WordPrefix(s);
    var rest := s[n..];
    var payload := PayloadTail(rest).value;
    assert UserAndTail(s).value == (s[..n], payload);
    WordPrefixIsWord(s);
    PayloadTailSplits(rest);
    if rest == Tail(payload, false) {
      SplitAt(s, n, Tail(payload, false));
    } else {
      SplitAt(s, n, Tail(payload, true));
    }
  }

  /**
    Soundness: a parse result consists of word groups and a line payload, and
    the input is those groups joined by '/', possibly with one trailing '/'.
   */
  lemma ParseSound(customId: string)
    requires ParseCustomID(customId).Some?
    ensures var f := ParseCustomID(customId).value;
      WellFormed(f) && (customId == Render(f, false) || customId == Render(f, true))
  {
    WordAndSlashSplits(customId);
    var (plugin, afterPlugin) := WordAndSlash(customId).value;
    WordAndSlashSplits(afterPlugin);
    var (kind, afterKind) := WordAndSlash(afterPlugin).value;
    WordAndSlashSplits(afterKind);
    var (id, afterId) := WordAndSlash(afterKind).value;
    UserAndTailSplits(afterId);
  }

  lemma UserAndTailOfRender(user: string, payload: Option<string>, trailingSlash: bool)
    requires IsWord(user) && (payload.Some? ==> IsLine(payload.value))
    ensures var r := UserAndTail(user + Tail(payload, trailingSlash));
      && r.Some? && r.value.0 == user
      && (payload.None? ==> r.value.1 == if trailingSlash then Some("") else None)
      && (payload.Some? && (trailingSlash || !EndsWithSlash(payload.value)) ==> r.value.1 == payload)
      && (payload.Some? && !trailingSlash && EndsWithSlash(payload.value) ==>
            r.value.1 == Some(payload.value[..|payload.value| - 1]))
  {
    var tail := Tail(payload, trailingSlash);
    var s := user + tail;
    assert tail == [] || tail[0] == '/';
    WordPrefixOfWord(user, tail);
    assert s[..|user|] == user;
    assert s[|user|..] == tail;
    match payload {
      case None =>
      case Some(p) =>
        if trailingSlash {
          assert tail[1..] == p + "/";
          assert (p + "/")[..|p|] == p;
        } else {
          assert tail[1..] == p;
        }
    }
  }

  /**
    Completeness: every rendering of well-formed fields, with or without one
    trailing '/', parses back to the same four groups; the payload is the one
    the lazy group chooses (the shortest: a trailing '/' is dropped from it
    once, and a bare trailing '/' yields the empty payload, not an absent one).
   */
  lemma ParseComplete(f: Fields, trailingSlash: bool)
    requires WellFormed(f)
    ensures var r := ParseCustomID(Render(f, trailingSlash));
      && r.Some?
      && r.value.plugin == f.plugin && r.value.kind == f.kind
      && r.value.id == f.id && r.value.user == f.user
      && (f.payload.None? ==> r.value.payload == if trailingSlash then Some("") else None)
      && (f.payload.Some? && (trailingSlash || !EndsWithSlash(f.payload.value)) ==>
            r.value.payload == f.payload)
      && (f.payload.Some? && !trailingSlash && EndsWithSlash(f.payload.value) ==>
            r.value.payload == Some(f.payload.value[..|f.payload.value| - 1]))
  {
    var afterId := f.user + Tail(f.payload, trailingSlash);
    var afterKind := f.id + ("/" + afterId);
    var afterPlugin := f.kind + ("/" + afterKind);
    var rendered := Render(f, trailingSlash);
    assert rendered == f.plugin + ("/" + afterPlugin);
    WordAndSlashOfWord(f.plugin, afterPlugin);
    WordAndSlashOfWord(f.kind, afterKind);
    WordAndSlashOfWord(f.id, afterId);
    UserAndTailOfRender(f.user, f.payload, trailingSlash);
    var tail := UserAndTail(afterId).value;
    assert ParseCustomID(rendered) == Some(Fields(f.plugin, f.kind, f.id, tail.0, tail.1));
  }

  lemma {:induction false} LineOfConcat(a: string, b: string)
    requires IsLine(a) && IsLine(b)
    ensures IsLine(a + b)
  {
    forall i | 0 <= i < |a + b| ensures !IsLineTerminator((a + b)[i]) {
      if i >= |a| {
        assert (a + b)[i] == b[i - |a|];
      }
    }
  }

  lemma WordIsLine(w: string)
    requires IsWord(w)
    ensures IsLine(w)
  {
    forall i | 0 <= i < |w| ensures !IsLineTerminator(w[i]) {
      assert IsWordChar(w[i]);
    }
  }

  /** No rendering of well-formed fields holds a line terminator. */
  lemma RenderIsLine(f: Fields, trailingSlash: bool)
    requires WellFormed(f)
    ensures IsLine(Render(f, trailingSlash))
  {
    var payloadPart: string := match f.payload case None => "" case Some(p) => "/" + p;
    if f.payload.Some? {
      LineOfConcat("/", f.payload.value);
    }
    LineOfConcat(payloadPart, if trailingSlash then "/" else "");
    WordIsLine(f.user);
    WordIsLine(f.id);
    WordIsLine(f.kind);
    WordIsLine(f.plugin);
    var t := Tail(f.payload, trailingSlash);
    LineOfConcat(f.user, t);
    LineOfConcat("/", f.user + t);
    LineOfConcat(f.id, "/" + (f.user + t));
    LineOfConcat("/", f.id + ("/" + (f.user + t)));
    LineOfConcat(f.kind, "/" + (f.id + ("/" + (f.user + t))));
    LineOfConcat("/", f.kind + ("/" + (f.id + ("/" + (f.user + t)))));
    LineOfConcat(f.plugin, "/" + (f.kind + ("/" + (f.id + ("/" + (f.user + t))))));
  }

  /** An id holding a line terminator anywhere never matches: `\w`, '/' and `.` all refuse it. */
  lemma LineTerminatorNeverMatches(customId: string, i: nat)
    requires i < |customId| && IsLineTerminator(customId[i])
    ensures ParseCustomID(customId) == None
  {
    if ParseCustomID(customId).Some? {
      var f := ParseCustomID(customId).value;
      ParseSound(customId);
      if customId == Render(f, false) {
        RenderIsLine(f, false);
      } else {
        RenderIsLine(f, true);
      }
    }
  }

  /** Exactly four fields: no payload group. */
  lemma FourFieldsExample()
    ensures ParseCustomID("p/t/1/2") == Some(Fields("p", "t", "1", "2", None))
  {
    var f := Fields("p", "t", "1", "2", None);
    assert Render(f, false) == "p/t/1/2";
    ParseComplete(f, false);
  }

  /** A bare trailing '/' after four fields gives the empty payload, not an absent one. */
  lemma EmptyPayloadExample()
    ensures ParseCustomID("p/t/1/2/") == Some(Fields("p", "t", "1", "2", Some("")))
  {
    var f := Fields("p", "t", "1", "2", None);
    assert Render(f, true) == "p/t/1/2/";
    ParseComplete(f, true);
  }

  /** A '/' inside the payload is kept. */
  lemma InnerSlashExample()
    ensures ParseCustomID("p/t/1/2/a/b") == Some(Fields("p", "t", "1", "2", Some("a/b")))
  {
    var f := Fields("p", "t", "1", "2", Some("a/b"));
    assert Render(f, false) == "p/t/1/2/a/b";
    ParseComplete(f, false);
  }

  /** One trailing '/' is not part of the payload. */
  lemma TrailingSlashExample()
    ensures ParseCustomID("p/t/1/2/x/") == Some(Fields("p", "t", "1", "2", Some("x")))
  {
    var f := Fields("p", "t", "1", "2", Some("x"));
    assert Render(f, true) == "p/t/1/2/x/";
    ParseComplete(f, true);
  }

  /** Three fields are too few. */
  lemma TooFewFieldsExample()
    ensures ParseCustomID("a/b/c") == None
  {
    WordAndSlashOfWord("a", "b/c");
    assert "a/b/c" == "a" + ("/" + "b/c");
    WordAndSlashOfWord("b", "c");
    assert "b/c" == "b" + ("/" + "c");
    WordPrefixOfWord("c", "");
    assert "c" + "" == "c";
  }

  /** A space in the plugin field is not a word character. */
  lemma SpaceInPluginExample()
    ensures ParseCustomID("a b/t/1/2") == None
  {
    WordPrefixOfWord("a", " b/t/1/2");
    assert "a b/t/1/2" == "a" + " b/t/1/2";
  }

  /** A word followed by a character that is neither a word character nor '/' is no `\w+/` field. */
  lemma WordAndSlashNeedsSlash(w: string, c: char, rest: string)
    requires IsWord(w) && !IsWordChar(c) && c != '/'
    ensures WordAndSlash(w + ([c] + rest)) == None
  {
    WordPrefixOfWord(w, [c] + rest);
    assert (w + ([c] + rest))[|w|] == c;
  }

  /** A character other than a word character or '/' right after the first word: no match. */
  lemma NonWordInPluginRejected(plugin: string, c: char, rest: string)
    requires IsWord(plugin) && !IsWordChar(c) && c != '/'
    ensures ParseCustomID(plugin + ([c] + rest)) == None
  {
    WordAndSlashNeedsSlash(plugin, c, rest);
  }

  /** The same inside the type field: a '-', a '.' or a space there means no match. */
  lemma NonWordInTypeRejected(plugin: string, kind: string, c: char, rest: string)
    requires IsWord(plugin) && IsWord(kind) && !IsWordChar(c) && c != '/'
    ensures ParseCustomID(plugin + ("/" + (kind + ([c] + rest)))) == None
  {
    var afterPlugin := kind + ([c] + rest);
    WordAndSlashOfWord(plugin, afterPlugin);
    WordAndSlashNeedsSlash(kind, c, rest);
    assert WordAndSlash(afterPlugin) == None;
  }
}
