/** The choice `decompress_response` makes on a response's `Content-Encoding` header, with the
    decompressors and the UTF-8 decoder taken as parameters. */
module Decoding {
  import opened Wrappers
  import opened Text

  newtype byte = x: int | 0 <= x < 256
  type Bytes = seq<byte>

  /** What is done to the raw body before it is decoded as text. */
  datatype Codec = Identity | Gzip | Brotli

  /** The foreign codecs: a decompressor yields `None` where the library raises, and the UTF-8
      decoder (with `errors='replace'`) never fails. */
  datatype Codecs = Codecs(
    gunzip: Bytes -> Option<Bytes>,
    unbrotli: Bytes -> Option<Bytes>,
    utf8: Bytes -> string)

  /** The header value, `''` when absent, lower-cased and compared with `gzip` and `br`. */
  function SelectCodec(contentEncoding: Option<string>): (c: Codec)
    ensures c == Gzip <==> contentEncoding.Some? && SameIgnoringCase(contentEncoding.value, "gzip")
    ensures c == Brotli <==> contentEncoding.Some? && SameIgnoringCase(contentEncoding.value, "br")
    ensures contentEncoding.None? ==> c == Identity
  {
    var e := contentEncoding.GetOr("");
    LowerEqualsLowerCase(e, "gzip");
    LowerEqualsLowerCase(e, "br");
    var lowered := Lower(e);
    if lowered == "gzip" then Gzip else if lowered == "br" then Brotli else Identity
  }

  /** The text of a response: the body, decompressed when the header asks for it, decoded as
      UTF-8; when the decompressor fails, the transport's own text `text` is used instead. */
  function DecodeBody(contentEncoding: Option<string>, content: Bytes, text: string, codecs: Codecs): (body: string)
    ensures SelectCodec(contentEncoding) == Identity ==> body == codecs.utf8(content)
    ensures SelectCodec(contentEncoding) == Gzip ==>
              body == (if codecs.gunzip(content).Some? then codecs.utf8(codecs.gunzip(content).value) else text)
    ensures SelectCodec(contentEncoding) == Brotli ==>
              body == (if codecs.unbrotli(content).Some? then codecs.utf8(codecs.unbrotli(content).value) else text)
  {
    match SelectCodec(contentEncoding)
    case Identity => codecs.utf8(content)
    case Gzip =>
      (match codecs.gunzip(content)
       case Some(plain) => codecs.utf8(plain)
       case None => text)
    case Brotli =>
      (match codecs.unbrotli(content)
       case Some(plain) => codecs.utf8(plain)
       case None => text)
  }

  /** A gzip body that decompresses to `plain` reads as the text of `plain`, whatever the
      case of the header; a corrupted one falls back to the transport's text. */
  lemma GzipRoundTrip(header: string, content: Bytes, plain: Bytes, text: string, codecs: Codecs)
    requires SameIgnoringCase(header, "gzip")
    ensures codecs.gunzip(content) == Some(plain) ==> DecodeBody(Some(header), content, text, codecs) == codecs.utf8(plain)
    ensures codecs.gunzip(content) == None ==> DecodeBody(Some(header), content, text, codecs) == text
  {
  }

  /** An absent header or one naming neither gzip nor brotli leaves the body as it is: the
      decompressors are never consulted. */
  lemma OtherEncodingsPassThrough(contentEncoding: Option<string>, content: Bytes, text: string, c1: Codecs, c2: Codecs)
    requires contentEncoding.Some? ==> !SameIgnoringCase(contentEncoding.value, "gzip") && !SameIgnoringCase(contentEncoding.value, "br")
    requires c1.utf8 == c2.utf8
    ensures DecodeBody(contentEncoding, content, text, c1) == DecodeBody(contentEncoding, content, text, c2) == c1.utf8(content)
  {
  }
}
