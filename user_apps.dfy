/** The record parser: one tab-separated line of the input into a UserApps record. */
module UserApps {
  import opened Base
  import opened Strs
  import opened Strconv

  /** One parsed line. Lat and Lon stand for Go's float64. */
  datatype UserApps = UserApps(devType: string, devId: string, lat: real, lon: real, apps: seq<uint32>)

  /** Go's zero value of the struct: what `var userApps UserApps` starts as. */
  const Zero := UserApps([], [], 0.0, 0.0, [])

  datatype ParseError = ErrInvalidLine | ErrInvalidLat | ErrInvalidLon

  /** strconv.ParseFloat(s, 64), taken as given: None where it returns an error. */
  type FloatParser = string -> Option<real>

  /** The app ids one token contributes: its value when it is a decimal
      uint32, nothing otherwise. */
  function KeepApp(token: string): (ids: seq<uint32>)
    ensures |ids| <= 1
    ensures ids != [] <==> token != [] && IsDecimal(token) && Value(token) <= MaxUint32
    ensures ids != [] ==> ids[0] as int == Value(token)
  {
    match ParseUint32(token)
    case Some(id) => [id]
    case None => []
  }

  /** The kept app ids of a list of tokens, in order. */
  function KeptApps(tokens: seq<string>): (apps: seq<uint32>)
    ensures |apps| <= |tokens|
    decreases |tokens|
  {
    if tokens == [] then []
    else KeptApps(tokens[..|tokens| - 1]) + KeepApp(tokens[|tokens| - 1])
  }

  /** The app ids of the fifth field: its comma-separated tokens, filtered. */
  function AppsOf(field: string): (apps: seq<uint32>)
    ensures |apps| <= multiset(field)[','] + 1
  {
    SplitCount(field, ',');
    KeptApps(Split(field, ','))
  }

  /** What Parse computes, as a value: the first failing check in the
      order line shape, latitude, longitude; otherwise the record. */
  function ParseLine(line: string, parseFloat: FloatParser): (r: Result<UserApps, ParseError>)
    ensures r.Success? ==> '\t' !in r.value.devType && '\t' !in r.value.devId
    ensures r.Success? ==> |Split(line, '\t')| >= 5
  {
    var parts := Split(line, '\t');
    if |parts| < 5 then Failure(ErrInvalidLine)
    else
      match parseFloat(parts[2])
      case None => Failure(ErrInvalidLat)
      case Some(lat) =>
        match parseFloat(parts[3])
        case None => Failure(ErrInvalidLon)
        case Some(lon) => Success(UserApps(parts[0], parts[1], lat, lon, AppsOf(parts[4])))
  }

  /** Parse as the source writes it: fill the record field by field, return
      early with the first error (leaving what was filled so far), then append
      every app token that parses. */
  method Parse(line: string, parseFloat: FloatParser) returns (u: UserApps, err: Option<ParseError>)
    ensures err.None? ==> ParseLine(line, parseFloat) == Success(u)
    ensures err.Some? ==> ParseLine(line, parseFloat) == Failure(err.value)
    ensures err == Some(ErrInvalidLine) ==> u == Zero
    ensures err == Some(ErrInvalidLat) ==>
      u == Zero.(devType := Split(line, '\t')[0], devId := Split(line, '\t')[1])
    ensures err == Some(ErrInvalidLon) ==>
      u == Zero.(devType := Split(line, '\t')[0], devId := Split(line, '\t')[1],
                 lat := parseFloat(Split(line, '\t')[2]).value)
  {
    u, err := Zero, None;
    var parts := Split(line, '\t');
    if |parts| < 5 {
      err := Some(ErrInvalidLine);
      return;
    }
    u := u.(devType := parts[0], devId := parts[1]);
    var lat := parseFloat(parts[2]);
    if lat.None? {
      err := Some(ErrInvalidLat);
      return;
    }
    u := u.(lat := lat.value);
    var lon := parseFloat(parts[3]);
    if lon.None? {
      err := Some(ErrInvalidLon);
      return;
    }
    u := u.(lon := lon.value);
    var tokens := Split(parts[4], ',');
    for i := 0 to |tokens|
      invariant u == UserApps(parts[0], parts[1], lat.value, lon.value, KeptApps(tokens[..i]))
    {
      assert tokens[..i + 1][..i] == tokens[..i];
      var pid := ParseUint32(tokens[i]);
      if pid.Some? {
        u := u.(apps := u.apps + [pid.value]);
      }
    }
    assert tokens[..|tokens|] == tokens;
  }

  // ---- Properties of the parser ----

  /** A line is rejected as malformed exactly when it has fewer than five tab-separated fields. */
  lemma ShortLineRejected(line: string, parseFloat: FloatParser)
    ensures ParseLine(line, parseFloat) == Failure(ErrInvalidLine) <==> |Split(line, '\t')| < 5
  {
  }

  /** The empty line is a single empty field, so it is malformed. */
  lemma EmptyLineRejected(parseFloat: FloatParser)
    ensures ParseLine("", parseFloat) == Failure(ErrInvalidLine)
  {
  }

  /** Latitude is checked first: a bad latitude is reported whatever the longitude is. */
  lemma LatCheckedFirst(line: string, parseFloat: FloatParser)
    requires |Split(line, '\t')| >= 5 && parseFloat(Split(line, '\t')[2]).None?
    ensures ParseLine(line, parseFloat) == Failure(ErrInvalidLat)
  {
  }

  /** A good latitude with a bad longitude is the longitude error. */
  lemma LonRejected(line: string, parseFloat: FloatParser)
    requires |Split(line, '\t')| >= 5
    requires parseFloat(Split(line, '\t')[2]).Some? && parseFloat(Split(line, '\t')[3]).None?
    ensures ParseLine(line, parseFloat) == Failure(ErrInvalidLon)
  {
  }

  /** A line parses exactly when it has five fields and both coordinates
      parse: no app token can make it fail. The device fields are copied
      verbatim and there are never more app ids than tokens. */
  lemma ParsedIff(line: string, parseFloat: FloatParser)
    ensures var parts := Split(line, '\t');
      ParseLine(line, parseFloat).Success? <==>
        |parts| >= 5 && parseFloat(parts[2]).Some? && parseFloat(parts[3]).Some?
    ensures var parts := Split(line, '\t');
      ParseLine(line, parseFloat).Success? ==>
        var u := ParseLine(line, parseFloat).value;
        u.devType == parts[0] && u.devId == parts[1] &&
        Some(u.lat) == parseFloat(parts[2]) && Some(u.lon) == parseFloat(parts[3]) &&
        |u.apps| <= |Split(parts[4], ',')|
  {
  }

  /** Fields after the fifth are ignored. */
  lemma {:induction false} ExtraFieldsIgnored(line: string, extra: string, parseFloat: FloatParser)
    requires |Split(line, '\t')| >= 5
    ensures ParseLine(line + "\t" + extra, parseFloat) == ParseLine(line, parseFloat)
  {
    SplitAppend(line, extra, '\t');
    var parts := Split(line, '\t');
    var parts' := Split(line + "\t" + extra, '\t');
    assert parts' == parts + Split(extra, '\t');
    assert parts'[..5] == parts[..5];
  }

  /** An empty fifth field gives no app ids (and no error). */
  lemma EmptyAppsField()
    ensures AppsOf("") == []
  {
  }

  /** Filtering distributes over concatenation of token lists: kept ids keep their order. */
  lemma {:induction false} KeptAppsAppend(a: seq<string>, b: seq<string>)
    ensures KeptApps(a + b) == KeptApps(a) + KeptApps(b)
    decreases |b|
  {
    if b == [] {
      assert a + b == a;
    } else {
      var b', x := b[..|b| - 1], b[|b| - 1];
      assert b == b' + [x];
      assert a + b == (a + b') + [x];
      calc {
        KeptApps(a + b);
        KeptApps((a + b') + [x]);
        { KeptAppsSnoc(a + b', x); }
        KeptApps(a + b') + KeepApp(x);
        { KeptAppsAppend(a, b'); }
        KeptApps(a) + KeptApps(b') + KeepApp(x);
        KeptApps(a) + (KeptApps(b') + KeepApp(x));
        { KeptAppsSnoc(b', x); }
        KeptApps(a) + KeptApps(b);
      }
    }
  }

  /** One more token adds what that token contributes. */
  lemma KeptAppsSnoc(tokens: seq<string>, x: string)
    ensures KeptApps(tokens + [x]) == KeptApps(tokens) + KeepApp(x)
  {
  }

  /** An id is kept exactly when some token parses to it. */
  lemma {:induction false} KeptAppsMembers(tokens: seq<string>, id: uint32)
    ensures id in KeptApps(tokens) <==> exists i :: 0 <= i < |tokens| && ParseUint32(tokens[i]) == Some(id)
    decreases |tokens|
  {
    if tokens != [] {
      var init, last := tokens[..|tokens| - 1], tokens[|tokens| - 1];
      KeptAppsMembers(init, id);
      assert tokens == init + [last];
      KeptAppsSnoc(init, last);
      assert id in KeepApp(last) <==> ParseUint32(last) == Some(id);
      assert (exists i :: 0 <= i < |tokens| && ParseUint32(tokens[i]) == Some(id)) <==>
        (exists i :: 0 <= i < |init| && ParseUint32(init[i]) == Some(id)) || ParseUint32(last) == Some(id)
      by {
        forall i | 0 <= i < |init| ensures tokens[i] == init[i] { }
      }
    }
  }

  /** No token is dropped exactly when every token is a decimal uint32. */
  lemma {:induction false} KeptAppsAll(tokens: seq<string>)
    ensures |KeptApps(tokens)| == |tokens| <==> forall i :: 0 <= i < |tokens| ==> ParseUint32(tokens[i]).Some?
    decreases |tokens|
  {
    if tokens != [] {
      var init := tokens[..|tokens| - 1];
      KeptAppsAll(init);
      assert forall i :: 0 <= i < |init| ==> init[i] == tokens[i];
    }
  }

  /** A line made of five tab-free fields splits into exactly those fields. */
  lemma FiveFields(a: string, b: string, c: string, d: string, e: string)
    requires '\t' !in a && '\t' !in b && '\t' !in c && '\t' !in d && '\t' !in e
    ensures Split(a + "\t" + b + "\t" + c + "\t" + d + "\t" + e, '\t') == [a, b, c, d, e]
  {
    SplitNoSep(a, '\t');
    SplitNoSep(b, '\t');
    SplitNoSep(c, '\t');
    SplitNoSep(d, '\t');
    SplitNoSep(e, '\t');
    SplitAppend(a, b, '\t');
    SplitAppend(a + "\t" + b, c, '\t');
    SplitAppend(a + "\t" + b + "\t" + c, d, '\t');
    SplitAppend(a + "\t" + b + "\t" + c + "\t" + d, e, '\t');
  }

  /** Three comma-free tokens split back into themselves. */
  lemma ThreeTokens(a: string, b: string, c: string)
    requires ',' !in a && ',' !in b && ',' !in c
    ensures Split(a + "," + b + "," + c, ',') == [a, b, c]
  {
    SplitNoSep(a, ',');
    SplitNoSep(b, ',');
    SplitNoSep(c, ',');
    SplitAppend(a, b, ',');
    SplitAppend(a + "," + b, c, ',');
  }

  /** A well-formed line with three app tokens: each token contributes on its own. */
  lemma ThreeAppLine(devType: string, devId: string, lat: string, lon: string,
                     x: string, y: string, z: string, parseFloat: FloatParser)
    requires '\t' !in devType && '\t' !in devId && '\t' !in lat && '\t' !in lon
    requires '\t' !in x && '\t' !in y && '\t' !in z && ',' !in x && ',' !in y && ',' !in z
    requires parseFloat(lat).Some? && parseFloat(lon).Some?
    ensures ParseLine(devType + "\t" + devId + "\t" + lat + "\t" + lon + "\t" + (x + "," + y + "," + z), parseFloat)
      == Success(UserApps(devType, devId, parseFloat(lat).value, parseFloat(lon).value,
                          KeepApp(x) + KeepApp(y) + KeepApp(z)))
  {
    var apps := x + "," + y + "," + z;
    var line := devType + "\t" + devId + "\t" + lat + "\t" + lon + "\t" + apps;
    assert '\t' !in apps;
    FiveFields(devType, devId, lat, lon, apps);
    ThreeTokens(x, y, z);
    assert KeptApps([x, y, z]) == KeepApp(x) + KeepApp(y) + KeepApp(z) by {
      KeptAppsSnoc([x, y], z);
      KeptAppsSnoc([x], y);
      KeptAppsSnoc([], x);
      assert [x, y, z] == [x, y] + [z] && [x, y] == [x] + [y] && [x] == [] + [x];
    }
    assert AppsOf(apps) == KeepApp(x) + KeepApp(y) + KeepApp(z);
    assert Split(line, '\t') == [devType, devId, lat, lon, apps];
  }

  /** The example line of the format: every app id kept, in order. */
  lemma ExampleLine(parseFloat: FloatParser)
    requires parseFloat("55.55") == Some(55.55) && parseFloat("37.37") == Some(37.37)
    ensures ParseLine("idfa" + "\t" + "A42" + "\t" + "55.55" + "\t" + "37.37" + "\t" + ("42" + "," + "43" + "," + "44"), parseFloat)
      == Success(UserApps("idfa", "A42", 55.55, 37.37, [42, 43, 44]))
  {
    ThreeAppLine("idfa", "A42", "55.55", "37.37", "42", "43", "44", parseFloat);
    assert KeepApp("42") == [42];
    assert KeepApp("43") == [43];
    assert KeepApp("44") == [44];
    assert KeepApp("42") + KeepApp("43") + KeepApp("44") == [42, 43, 44];
  }

  /** The same line with an invalid middle id: the id is dropped and the line still parses. */
  lemma ExampleBadApp(parseFloat: FloatParser)
    requires parseFloat("55.55") == Some(55.55) && parseFloat("37.37") == Some(37.37)
    ensures ParseLine("idfa" + "\t" + "A42" + "\t" + "55.55" + "\t" + "37.37" + "\t" + ("42" + "," + "abc" + "," + "44"), parseFloat)
      == Success(UserApps("idfa", "A42", 55.55, 37.37, [42, 44]))
  {
    ThreeAppLine("idfa", "A42", "55.55", "37.37", "42", "abc", "44", parseFloat);
    assert KeepApp("42") == [42];
    assert KeepApp("44") == [44];
    assert !IsDigit("abc"[0]);
    assert KeepApp("abc") == [];
    assert KeepApp("42") + KeepApp("abc") + KeepApp("44") == [42, 44];
  }

  /** A non-numeric latitude is the latitude error, whatever follows. */
  lemma ExampleBadLat(parseFloat: FloatParser)
    requires parseFloat("bad") == None
    ensures ParseLine("idfa" + "\t" + "A42" + "\t" + "bad" + "\t" + "37.37" + "\t" + "42", parseFloat) == Failure(ErrInvalidLat)
  {
    FiveFields("idfa", "A42", "bad", "37.37", "42");
  }
}
