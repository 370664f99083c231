/** The header split that `processImage` (App.tsx, lines 101-102) applies to
    the stored image before calling the generator: the text after the first
    comma is taken as the base64 payload, and the text between the first colon
    and the first semicolon of what precedes that comma as the media type. For
    a data URL `data:<mime>;base64,<payload>` (RFC 2397, section 3) this
    recovers `<mime>` and `<payload>`. */
module DataUrl {
  import opened Wrappers
  import opened JsStrings

  /** What the two expressions produce. `base64Data` is `undefined` when the
      image holds no comma; the media-type expression throws a `TypeError`
      when the part before the first comma holds no colon, because it then
      calls `.split(';')` on `undefined`. */
  datatype Extraction =
    | Extracted(base64Data: Option<string>, mimeType: string)
    | MimeLookupThrew

  /** The data URL a `FileReader.readAsDataURL` call produces for a body of
      media type `mime` whose base64 text is `payload`. */
  function Build(mime: string, payload: string): string {
    "data:" + mime + ";base64," + payload
  }

  /** The part of `image` before its first comma: `image.split(',')[0]`. */
  function Header(image: string): string {
    Before(image, ',')
  }

  /** Lines 101-102 evaluated on `image`. */
  function Extract(image: string): (r: Extraction)
    ensures r.MimeLookupThrew? <==> ':' !in Header(image)
    ensures r.Extracted? ==> (r.base64Data.Some? <==> ',' in image)
    ensures r.Extracted? ==> ':' !in r.mimeType && ';' !in r.mimeType
  {
    var base64Data := At(Split(image, ','), 1);
    var header := Split(image, ',')[0];
    match At(Split(header, ':'), 1)
    case None => MimeLookupThrew
    case Some(afterScheme) => Extracted(base64Data, Split(afterScheme, ';')[0])
  }

  /** Round trip: the split recovers the media type and the payload of any
      data URL whose media type holds none of `,` `:` `;` and whose payload
      holds no `,` (base64 text never does). */
  lemma {:induction false} ExtractBuild(mime: string, payload: string)
    requires ',' !in mime && ':' !in mime && ';' !in mime
    requires ',' !in payload
    ensures Extract(Build(mime, payload)) == Extracted(Some(payload), mime)
  {
    var header := "data:" + mime + ";base64";
    CommaSplit(mime, payload);
    HeaderSplit(mime);
    ParamSplit(mime);
    var afterScheme := mime + ";base64";
    assert At(Split(header, ':'), 1) == Some(afterScheme);
    assert Split(afterScheme, ';')[0] == mime;
  }

  /** The first comma of a built data URL ends its header. */
  lemma {:induction false} CommaSplit(mime: string, payload: string)
    requires ',' !in mime && ',' !in payload
    ensures Split(Build(mime, payload), ',') == ["data:" + mime + ";base64", payload]
  {
    var header := "data:" + mime + ";base64";
    assert Build(mime, payload) == header + [','] + payload;
    assert ',' !in header by {
      assert header == "data:" + mime + ";" + "base64";
    }
    SplitAt(header, ',', payload);
  }

  /** The header splits at its colon. */
  lemma {:induction false} HeaderSplit(mime: string)
    requires ':' !in mime && ';' !in mime
    ensures Split("data:" + mime + ";base64", ':') == ["data", mime + ";base64"]
  {
    var afterScheme := mime + ";base64";
    assert "data:" + mime + ";base64" == "data" + [':'] + afterScheme;
    assert ':' !in afterScheme by {
      assert afterScheme == mime + [';'] + "base64";
    }
    SplitAt("data", ':', afterScheme);
    SplitWithout(afterScheme, ':');
  }

  /** What follows the colon splits at its semicolon. */
  lemma {:induction false} ParamSplit(mime: string)
    requires ';' !in mime
    ensures Split(mime + ";base64", ';')[0] == mime
  {
    assert mime + ";base64" == mime + [';'] + "base64";
    SplitAt(mime, ';', "base64");
  }

  /** A header with no colon before the first comma cannot be split, whatever follows. */
  lemma {:induction false} NoColonThrows(header: string, rest: string)
    requires ',' !in header && ':' !in header
    ensures Extract(header + [','] + rest).MimeLookupThrew?
  {
    SplitAt(header, ',', rest);
  }
}
