/** Images as Anthropic sources and as OpenAI URLs (data URLs of RFC 2397, section 3). */
module ImageUrls {
  import opened Wrappers
  import opened Strings

  datatype Source = Base64(mediaType: string, data: string) | Url(url: string)

  function ToUrl(source: Source): string {
    match source
    case Base64(mediaType, data) => "data:" + mediaType + ";base64," + data
    case Url(url) => url
  }

  predicate IsHttp(url: string) {
    "http://" <= url || "https://" <= url
  }

  function FromUrl(url: string): Option<Source> {
    if "data:" <= url then
      var rest := url[5..];
      var p := IndexOf(rest, ',');
      if p == |rest| then None
      else
        var (meta, data) := (rest[..p], rest[p + 1..]);
        Some(Base64(meta[..IndexOf(meta, ';')], if "base64," <= data then data[7..] else data))
    else if IsHttp(url) then Some(Url(url))
    else None
  }

  /** The sources that come back from their URL. */
  predicate Carried(source: Source) {
    match source
    case Base64(mediaType, data) => ',' !in mediaType && ';' !in mediaType && !("base64," <= data)
    case Url(url) => IsHttp(url)
  }

  /** A source survives the trip through its URL exactly when a media type is
      free of `,` and `;` and the data does not begin with `base64,`, or when
      a URL is http or https. */
  lemma RoundTripsIff(source: Source)
    ensures FromUrl(ToUrl(source)) == Some(source) <==> Carried(source)
  {
    match source
    case Url(url) =>
      assert "data:" <= url ==> url[0] == 'd' && !IsHttp(url);
    case Base64(mt, data) =>
      DataUrlParts(mt, data);
  }

  /** A URL survives the trip the other way exactly when it is the URL of such a source. */
  lemma UrlComesBackIff(url: string)
    ensures FromUrl(url).Some? && ToUrl(FromUrl(url).value) == url
      <==> exists source :: Carried(source) && ToUrl(source) == url
  {
    if FromUrl(url).Some? {
      RoundTripsIff(FromUrl(url).value);
    }
    forall source | Carried(source) && ToUrl(source) == url ensures FromUrl(url) == Some(source) {
      RoundTripsIff(source);
    }
  }

  /** Web addresses are sources as they are; nothing else but a data URL is one. */
  lemma WebUrls(rest: string, other: string)
    requires other != "" && other[0] != 'd' && other[0] != 'h'
    ensures FromUrl("http://" + rest) == Some(Url("http://" + rest))
    ensures FromUrl("https://" + rest) == Some(Url("https://" + rest))
    ensures FromUrl(other) == None
  {
    var (a, b) := ("http://" + rest, "https://" + rest);
    assert a[0] == 'h' && b[0] == 'h' && "http://" <= a && "https://" <= b;
  }

  /** The form of RFC 2397, section 3, part by part. */
  lemma DataUrlForm(mt: string, data: string)
    ensures var (url, n) := (ToUrl(Base64(mt, data)), 5 + |mt|);
      && |url| == n + 8 + |data|
      && url[..5] == "data:" && url[5..n] == mt && url[n..n + 8] == ";base64," && url[n + 8..] == data
  {
  }

  lemma DataUrlParts(mt: string, data: string)
    ensures var source := Base64(mt, data);
      && FromUrl(ToUrl(source)).Some?
      && (FromUrl(ToUrl(source)) == Some(source) <==> Carried(source))
  {
    hide IndexOf;
    var rest := mt + ";base64" + "," + data;
    var url := ToUrl(Base64(mt, data));
    UrlIs(mt, data);
    CommaSplits(mt, data);
    SemicolonSplits(mt);
    var p := IndexOf(rest, ',');
    assert FromUrl(url) ==
      Some(Base64(rest[..p][..IndexOf(rest[..p], ';')],
        if "base64," <= rest[p + 1..] then rest[p + 1..][7..] else rest[p + 1..]));
  }

  lemma UrlIs(mt: string, data: string)
    ensures var url := ToUrl(Base64(mt, data));
      "data:" <= url && url[5..] == mt + ";base64" + "," + data
  {
    assert ";base64," == ";base64" + ",";
    Slices("data:", mt + ";base64,", data);
    assert ToUrl(Base64(mt, data)) == "data:" + (mt + ";base64,") + data;
  }

  lemma CommaSplits(mt: string, data: string)
    ensures var (head, rest) := (mt + ";base64", mt + ";base64" + "," + data);
      && IndexOf(rest, ',') < |rest|
      && (',' !in mt ==> rest[..IndexOf(rest, ',')] == head && rest[IndexOf(rest, ',') + 1..] == data)
      && (',' in mt ==> IndexOf(rest, ',') < |mt|)
  {
    hide IndexOf;
    var (head, rest) := (mt + ";base64", mt + ";base64" + "," + data);
    Slices(head, ",", data);
    assert rest[|head|] == ',';
    if ',' in mt {
      var i :| 0 <= i < |mt| && mt[i] == ',';
      assert rest[i] == ',';
    } else {
      HeadHasNoComma(mt);
      IndexIs(rest, ',', |head|);
    }
  }

  lemma SemicolonSplits(mt: string)
    ensures var head := mt + ";base64";
      && (';' !in mt ==> head[..IndexOf(head, ';')] == mt)
      && (';' in mt ==> IndexOf(head, ';') < |mt|)
  {
    hide IndexOf;
    var head := mt + ";base64";
    assert head[|mt|] == ';' && head[..|mt|] == mt;
    if ';' in mt {
      var i :| 0 <= i < |mt| && mt[i] == ';';
      assert head[i] == ';';
    } else {
      IndexIs(head, ';', |mt|);
    }
  }

  lemma HeadHasNoComma(mt: string)
    requires ',' !in mt
    ensures ',' !in mt + ";base64"
  {
    var tail := ";base64";
    assert ',' !in tail;
  }
}
