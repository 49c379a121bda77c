/** `generateSvg`: wraps SVG markup into a base64 `data:` URI.
    The base64 encoding of the markup's UTF-8 bytes is a library call
    and is passed in as an opaque function. */
module Svg {
  import opened Wrappers

  const DataUriPrefix: string := "data:image/svg+xml;base64,"

  /** The data URI for `content`, given the encoder `base64` that stands
      for `Buffer.from(content).toString("base64")`. */
  function GenerateSvg(base64: string -> string, content: string): (uri: string)
    ensures |DataUriPrefix| <= |uri| && uri[..|DataUriPrefix|] == DataUriPrefix
    ensures uri[|DataUriPrefix|..] == base64(content)
  {
    DataUriPrefix + base64(content)
  }

  /** The encoded payload of an SVG data URI, or None when `uri` does not
      carry the prefix. */
  function Payload(uri: string): (r: Option<string>)
    ensures r.Some? <==> DataUriPrefix <= uri
    ensures r.Some? ==> uri == DataUriPrefix + r.value
  {
    if DataUriPrefix <= uri then Some(uri[|DataUriPrefix|..]) else None
  }

  /** Payload inverts GenerateSvg. */
  lemma PayloadOfGenerated(base64: string -> string, content: string)
    ensures Payload(GenerateSvg(base64, content)) == Some(base64(content))
  {
    var uri := GenerateSvg(base64, content);
    assert DataUriPrefix <= uri;
  }

  /** Two markups whose encodings differ give different URIs, so the prefix
      loses no information. */
  lemma GenerateSvgInjective(base64: string -> string, a: string, b: string)
    requires base64(a) != base64(b)
    ensures GenerateSvg(base64, a) != GenerateSvg(base64, b)
  {
    PayloadOfGenerated(base64, a);
    PayloadOfGenerated(base64, b);
  }
}
