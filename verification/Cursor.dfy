/** Page cursors (persistence/review_store.py): an instant and an identifier as one URL-safe string. The
    instant's format is a parameter: any lossless one whose text has no separator. */
module Cursor {
  import opened Domain
  import Utf8
  import Base64Url

  const SEPARATOR: char := '|'

  ghost predicate Lossless(format: Time -> string, parse: string -> Option<Time>) {
    forall t :: parse(format(t)) == Some(t) && SEPARATOR !in format(t)
  }

  function Encode(format: Time -> string, at: Time, identifier: string): string {
    Base64Url.StripPads(Base64Url.Encode(Utf8.Encode(format(at) + [SEPARATOR] + identifier)))
  }

  datatype Position = Start | After(at: Time, identifier: string) | InvalidCursor

  /** Where the first separator is. */
  function IndexOf(s: string): (r: Option<nat>)
    ensures r.Some? ==> r.value < |s| && s[r.value] == SEPARATOR && SEPARATOR !in s[..r.value]
    ensures r.None? ==> SEPARATOR !in s
  {
    if s == "" then None
    else if s[0] == SEPARATOR then Some(0)
    else
      var r := IndexOf(s[1..]);
      if r.None? then None
      else
        assert s[..r.value + 1] == [s[0]] + s[1..][..r.value];
        Some(r.value + 1)
  }

  function Split(parse: string -> Option<Time>, text: string): Position {
    var i := IndexOf(text);
    if i.None? then InvalidCursor
    else
      var at := parse(text[..i.value]);
      if at.None? then InvalidCursor else After(at.value, text[i.value + 1..])
  }

  /** Every error on the way is the same error: an invalid cursor. */
  function Decode(parse: string -> Option<Time>, cursor: Option<string>): Position {
    match cursor
    case None => Start
    case Some(value) =>
      var bytes := Base64Url.Decode(Base64Url.Repad(value));
      if bytes.None? then InvalidCursor
      else
        var text := Utf8.Decode(bytes.value);
        if text.None? then InvalidCursor else Split(parse, text.value)
  }

  lemma FirstSeparator(head: string, tail: string)
    requires SEPARATOR !in head
    ensures IndexOf(head + [SEPARATOR] + tail) == Some(|head|)
  {
    var s := head + [SEPARATOR] + tail;
    assert s[|head|] == SEPARATOR;
    assert forall j :: 0 <= j < |head| ==> s[j] == head[j];
  }

  /** A cursor decodes to the instant and the identifier it was made of, separators and all. */
  lemma RoundTrip(format: Time -> string, parse: string -> Option<Time>, at: Time, identifier: string)
    requires Lossless(format, parse)
    ensures Decode(parse, Some(Encode(format, at, identifier))) == After(at, identifier)
  {
    var text := format(at) + [SEPARATOR] + identifier;
    Base64Url.RoundTrip(Utf8.Encode(text));
    Utf8.RoundTrip(text);
    FirstSeparator(format(at), identifier);
    assert text[..|format(at)|] == format(at) && text[|format(at)| + 1..] == identifier;
  }

  /** Cursors go into a URL as they are. */
  lemma IsUrlSafe(format: Time -> string, at: Time, identifier: string)
    ensures forall i :: 0 <= i < |Encode(format, at, identifier)| ==>
              Base64Url.UrlSafe(Encode(format, at, identifier)[i])
  {
    var bytes := Utf8.Encode(format(at) + [SEPARATOR] + identifier);
    Base64Url.RepadIsLossless(bytes);
    Base64Url.DataShape(bytes);
  }

  /** The text of a cursor, if its characters and its bytes are good. */
  function TextOf(value: string): Option<string> {
    var bytes := Base64Url.Decode(Base64Url.Repad(value));
    if bytes.None? then None else Utf8.Decode(bytes.value)
  }

  predicate IsHead(parse: string -> Option<Time>, head: string, at: Time) {
    parse(head) == Some(at) && SEPARATOR !in head
  }

  /** The cursor's text is one that parses as the instant, a separator, and the identifier. */
  ghost predicate StandsFor(parse: string -> Option<Time>, value: string, at: Time, identifier: string) {
    exists head :: IsHead(parse, head, at) && TextOf(value) == Some(head + [SEPARATOR] + identifier)
  }

  /** That is what the decoder makes of a cursor, and of no other. */
  lemma DecodesExactly(parse: string -> Option<Time>, value: string, at: Time, identifier: string)
    ensures Decode(parse, Some(value)) == After(at, identifier) <==> StandsFor(parse, value, at, identifier)
  {
    var text := TextOf(value);
    if head :| IsHead(parse, head, at) && text == Some(head + [SEPARATOR] + identifier) {
      FirstSeparator(head, identifier);
      assert text.value[..|head|] == head && text.value[|head| + 1..] == identifier;
    }
    if Decode(parse, Some(value)) == After(at, identifier) {
      var i := IndexOf(text.value).value;
      assert text.value == text.value[..i] + [SEPARATOR] + text.value[i + 1..];
      assert IsHead(parse, text.value[..i], at);
    }
  }
}
