/** The pure parts of the Emby REST client: the base URL and endpoint templates,
    the query strings of the view and item requests, the name=value pairs of the
    authorization header, the case-insensitive user lookup and the filters applied
    to the decoded view and item lists. The HTTP requests and the JSON decoding
    around them are not modelled: each filter takes the already decoded list. */
module Api {
  import opened Text
  import opened Seqs
  import opened Emby
  import opened FieldSets

  // Placeholders in the URL templates
  const SubstHostname := "$hostname"
  const SubstPort := "$port"
  const SubstUserId := "$userid"

  const StandardUrl := "http://" + SubstHostname + ":" + SubstPort + "/emby"
  const SecureUrl := "https://" + SubstHostname + ":" + SubstPort + "/emby"

  // Endpoints
  const GETUsersPublic := "/Users/Public"
  const POSTAuthenticateUser := "/Users/AuthenticateByName"
  /** The head of every per-user endpoint. */
  const UserPath := "/Users/" + SubstUserId
  const GETViews := "/Users/" + SubstUserId + "/Views"
  const GETItems := "/Users/" + SubstUserId + "/Items"

  // Fields of the authorization header
  const AuthType := "Emby"
  const AuthKeyUserId := "UserId"
  const AuthKeyClient := "Client"
  const AuthKeyDevice := "Device"
  const AuthKeyDeviceId := "DeviceId"
  const AuthKeyVersion := "Version"

  // URL parameters
  const ParaParentId := "ParentId="
  const ParaRecursive := "Recursive="
  const ParaFields := "Fields="
  const ApiKey := "api_key="

  /** The collection types the client can display, in the order they are tried. */
  const AllowedCollectionTypes: seq<string> := [CollectionMovies, CollectionTVShows, CollectionHomeVideos]

  /** The connection settings the client keeps. */
  datatype EmbyPreferences = EmbyPreferences(
    embySecure: bool, embyServer: string, embyPort: string, embyUser: string, embyPassword: string)

  /** A library view of the current user. */
  datatype UserView = UserView(name: string, collectionType: string, id: string)

  // ---------------------------------------------------------------------------
  // Base URL and endpoint URLs
  // ---------------------------------------------------------------------------

  function Scheme(secure: bool): string
  {
    if secure then "https://" else "http://"
  }

  /** The template of the chosen scheme with the first "$hostname" and then the
      first "$port" replaced. */
  function BasicUrlOf(secure: bool, hostname: string, port: string): (r: string)
  {
    var url := if secure then SecureUrl else StandardUrl;
    ReplaceFirst(ReplaceFirst(url, SubstHostname, hostname), SubstPort, port)
  }

  /** For a host name that does not itself hold "$port", the base URL is the
      scheme, the host, a colon, the port and "/emby". */
  lemma BasicUrlShape(secure: bool, hostname: string, port: string)
    requires !Contains(hostname, SubstPort)
    ensures BasicUrlOf(secure, hostname, port) == Scheme(secure) + hostname + ":" + port + "/emby"
  {
    HostReplaced(secure, hostname);
    PortReplaced(Scheme(secure), hostname, port);
  }

  lemma HostReplaced(secure: bool, hostname: string)
    ensures ReplaceFirst(if secure then SecureUrl else StandardUrl, SubstHostname, hostname) ==
            Scheme(secure) + hostname + [':'] + SubstPort + "/emby"
  {
    var rest := [':'] + SubstPort + "/emby";
    assert (if secure then SecureUrl else StandardUrl) == Scheme(secure) + (SubstHostname + rest);
    HostReplacedAfter(Scheme(secure), rest, hostname);
  }

  lemma HostReplacedAfter(scheme: string, rest: string, hostname: string)
    requires '$' !in scheme
    ensures ReplaceFirst(scheme + (SubstHostname + rest), SubstHostname, hostname) == scheme + hostname + rest
  {
    ReplaceSkipping(scheme, SubstHostname + rest, SubstHostname, hostname);
    ReplaceAtStart(SubstHostname, rest, hostname);
  }

  lemma PortReplaced(scheme: string, hostname: string, port: string)
    requires '$' !in scheme && !Contains(hostname, SubstPort)
    ensures ReplaceFirst(scheme + hostname + [':'] + SubstPort + "/emby", SubstPort, port) ==
            scheme + hostname + ":" + port + "/emby"
  {
    NoMatchAcross(scheme, hostname, SubstPort);
    assert scheme + hostname + [':'] + SubstPort + "/emby" == scheme + hostname + [':'] + (SubstPort + "/emby");
    ReplaceAfter(scheme + hostname, ':', SubstPort + "/emby", SubstPort, port);
    ReplaceAtStart(SubstPort, "/emby", port);
  }

  /** An endpoint below "/Users/$userid" gets the user id in place of the
      placeholder, when the base URL before it holds no "$userid" of its own. */
  lemma UserEndpoint(base: string, tail: string, id: string)
    requires !Contains(base, SubstUserId)
    ensures ReplaceFirst(base + ("/Users/" + SubstUserId + tail), SubstUserId, id) ==
            base + "/Users/" + id + tail
  {
    var t := "Users/" + (SubstUserId + tail);
    assert base + ("/Users/" + SubstUserId + tail) == base + ['/'] + t;
    ReplaceAfter(base, '/', t, SubstUserId, id);
    ReplaceSkipping("Users/", SubstUserId + tail, SubstUserId, id);
    ReplaceAtStart(SubstUserId, tail, id);
    assert ReplaceFirst(t, SubstUserId, id) == "Users/" + (id + tail);
    assert base + ['/'] + ("Users/" + (id + tail)) == base + "/Users/" + id + tail;
  }

  /** The REST client: the connection settings and the base URL built from them. */
  class Client {
    var basicUrl: string
    var preferences: EmbyPreferences

    constructor()
      ensures basicUrl == ""
      ensures preferences == EmbyPreferences(false, "", "", "", "")
    {
      basicUrl := "";
      preferences := EmbyPreferences(false, "", "", "", "");
    }

    /** Stores the connection settings and rebuilds the base URL from them. */
    method InitApiPreferences(secure: bool, server: string, port: string, user: string, password: string)
      modifies this
      ensures preferences == EmbyPreferences(secure, server, port, user, password)
      ensures basicUrl == BasicUrlOf(secure, server, port)
    {
      preferences := EmbyPreferences(secure, server, port, user, password);
      CreateBasicUrl(preferences.embySecure, preferences.embyServer, preferences.embyPort);
    }

    /** Sets the base URL; the stored settings are left alone. */
    method CreateBasicUrl(secure: bool, hostname: string, port: string)
      modifies this
      ensures basicUrl == BasicUrlOf(secure, hostname, port)
      ensures preferences == old(preferences)
    {
      var url: string;
      if secure {
        url := SecureUrl;
      } else {
        url := StandardUrl;
      }
      basicUrl := ReplaceFirst(url, SubstHostname, hostname);
      basicUrl := ReplaceFirst(basicUrl, SubstPort, port);
    }

    /** The URL of an endpoint: the base URL followed by the endpoint. */
    function CreateRestUrl(endpoint: string): (r: string)
      reads this
      ensures |r| == |basicUrl| + |endpoint|
      ensures r[..|basicUrl|] == basicUrl && r[|basicUrl|..] == endpoint
    {
      basicUrl + endpoint
    }

    /** The URL of a per-user endpoint, with its first "$userid" replaced by
        the user id. */
    function CreateRestUrlForUser(endpoint: string, id: string): (r: string)
      reads this
      ensures !Contains(basicUrl + endpoint, SubstUserId) ==> r == basicUrl + endpoint
      ensures !Contains(basicUrl, SubstUserId) && |UserPath| <= |endpoint| && endpoint[..|UserPath|] == UserPath ==>
              r == basicUrl + "/Users/" + id + endpoint[|UserPath|..]
    {
      var url := CreateRestUrl(endpoint);
      if !Contains(basicUrl, SubstUserId) && |UserPath| <= |endpoint| && endpoint[..|UserPath|] == UserPath then
        var tail := endpoint[|UserPath|..];
        assert endpoint == UserPath + tail by {
          assert endpoint == endpoint[..|UserPath|] + endpoint[|UserPath|..];
        }
        assert url == basicUrl + ("/Users/" + SubstUserId + tail);
        assert MatchAt(url, SubstUserId, |basicUrl| + 7);
        UserEndpoint(basicUrl, tail, id);
        ReplaceFirst(url, SubstUserId, id)
      else if !Contains(url, SubstUserId) then
        ReplaceAbsent(url, SubstUserId, id);
        ReplaceFirst(url, SubstUserId, id)
      else
        ReplaceFirst(url, SubstUserId, id)
    }

    /** The items endpoint of a user, under a base URL free of "$userid". */
    lemma ItemsUrlForUser(id: string)
      requires !Contains(basicUrl, SubstUserId)
      ensures CreateRestUrlForUser(GETItems, id) == basicUrl + "/Users/" + id + "/Items"
    {
      UserEndpoint(basicUrl, "/Items", id);
    }

    /** The views endpoint of a user, under a base URL free of "$userid". */
    lemma ViewsUrlForUser(id: string)
      requires !Contains(basicUrl, SubstUserId)
      ensures CreateRestUrlForUser(GETViews, id) == basicUrl + "/Users/" + id + "/Views"
    {
      UserEndpoint(basicUrl, "/Views", id);
    }

    /** The request URL for the library views of a user. */
    method UserViewsUrl(id: string, accessToken: string) returns (url: string)
      ensures url == CreateRestUrlForUser(GETViews, id) + "?" + ApiKey + accessToken
      ensures !Contains(basicUrl, SubstUserId) ==>
              url == basicUrl + "/Users/" + id + "/Views?api_key=" + accessToken
    {
      url := CreateRestUrlForUser(GETViews, id);
      url := url + "?" + ApiKey + accessToken;
      if !Contains(basicUrl, SubstUserId) {
        ViewsUrlForUser(id);
      }
    }

    /** The request URL for the items of a collection: the per-user items
        endpoint, then the query string. */
    method UserItemsUrl(id: string, collectionId: string, collectionType: string, accessToken: string)
      returns (url: string)
      ensures url == CreateRestUrlForUser(GETItems, id) + "?" +
                     ItemsQuery(accessToken, collectionId, Join(",", FieldTable(collectionType)))
      ensures !Contains(basicUrl, SubstUserId) ==>
              url == basicUrl + "/Users/" + id + "/Items?" +
                     ItemsQuery(accessToken, collectionId, Join(",", FieldTable(collectionType)))
    {
      var base := CreateRestUrlForUser(GETItems, id);
      url := base + "?" + ApiKey + accessToken;
      url := url + "&" + ParaRecursive + "true";
      url := url + "&" + ParaParentId + collectionId;
      var fields := GetFields(collectionType);
      url := url + "&" + ParaFields + fields;
      ItemsUrlText(base, accessToken, collectionId, fields);
      if !Contains(basicUrl, SubstUserId) {
        ItemsUrlForUser(id);
      }
    }
  }

  /** The parameters of an items request, in the order they are sent. */
  function ItemsParameters(accessToken: string, collectionId: string, fields: string): seq<string>
  {
    [ApiKey + accessToken, ParaRecursive + "true", ParaParentId + collectionId, ParaFields + fields]
  }

  /** The query string of an items request: its parameters joined with "&". */
  function ItemsQuery(accessToken: string, collectionId: string, fields: string): string
  {
    Join("&", ItemsParameters(accessToken, collectionId, fields))
  }

  /** The query string written out: each parameter after an "&". */
  lemma ItemsQueryText(accessToken: string, collectionId: string, fields: string)
    ensures ItemsQuery(accessToken, collectionId, fields) ==
            ApiKey + accessToken + "&" + ParaRecursive + "true" + "&" + ParaParentId + collectionId + "&" +
            ParaFields + fields
  {
    var ps := ItemsParameters(accessToken, collectionId, fields);
    JoinSnoc("&", [ps[0]], ps[1]);
    assert [ps[0]] + [ps[1]] == ps[..2];
    JoinSnoc("&", ps[..2], ps[2]);
    assert ps[..2] + [ps[2]] == ps[..3];
    JoinSnoc("&", ps[..3], ps[3]);
    assert ps[..3] + [ps[3]] == ps;
  }

  /** The items URL as the client assembles it, piece after piece. */
  lemma ItemsUrlText(base: string, accessToken: string, collectionId: string, fields: string)
    ensures base + "?" + ApiKey + accessToken + "&" + ParaRecursive + "true" + "&" + ParaParentId +
            collectionId + "&" + ParaFields + fields ==
            base + "?" + ItemsQuery(accessToken, collectionId, fields)
  {
    ItemsQueryText(accessToken, collectionId, fields);
  }

  /** Splitting the query string of an items request at "&" gives back its four
      parameters, whenever the access token and the collection id hold no "&":
      the field list never does. */
  lemma ItemsQueryRoundTrip(accessToken: string, collectionId: string, collectionType: string)
    requires '&' !in accessToken && '&' !in collectionId
    ensures var fields := Join(",", FieldTable(collectionType));
            Split('&', ItemsQuery(accessToken, collectionId, fields)) ==
              ItemsParameters(accessToken, collectionId, fields)
  {
    var fields := Join(",", FieldTable(collectionType));
    FieldListPlain(collectionType);
    ItemsParametersPlain(accessToken, collectionId, fields);
    SplitJoin('&', ItemsParameters(accessToken, collectionId, fields));
  }

  /** A field list never holds an "&". */
  lemma FieldListPlain(collectionType: string)
    ensures '&' !in Join(",", FieldTable(collectionType))
  {
    FieldNamesPlain(collectionType);
    JoinAvoids(",", FieldTable(collectionType), '&');
  }

  /** Parameters built from values without "&" hold none. */
  lemma ItemsParametersPlain(accessToken: string, collectionId: string, fields: string)
    requires '&' !in accessToken && '&' !in collectionId && '&' !in fields
    ensures forall i :: 0 <= i < |ItemsParameters(accessToken, collectionId, fields)| ==>
              '&' !in ItemsParameters(accessToken, collectionId, fields)[i]
  {
  }

  // ---------------------------------------------------------------------------
  // Authorization header
  // ---------------------------------------------------------------------------

  /** key="value" */
  function CreatePair(key: string, value: string): (r: string)
    ensures |r| == |key| + |value| + 3
    ensures r[|key|] == '=' && r[|key| + 1] == '"' && r[|r| - 1] == '"'
  {
    key + "=" + "\"" + value + "\""
  }

  /** The text before the first '=' of `r`, or all of `r` when it has none. */
  function PairKey(r: string): (k: string)
    ensures |k| <= |r| && k == r[..|k|] && '=' !in k
    ensures |k| < |r| ==> r[|k|] == '='
  {
    if r == [] || r[0] == '=' then "" else [r[0]] + PairKey(r[1..])
  }

  /** Reads a pair back: the key before the first '=', the value between the
      quotes after it. */
  function ParsePair(r: string): Option<(string, string)>
  {
    var k := PairKey(r);
    if |k| + 3 <= |r| && r[|k| + 1] == '"' && r[|r| - 1] == '"' then Some((k, r[|k| + 2..|r| - 1]))
    else None
  }

  lemma {:induction false} PairKeyOf(key: string, rest: string)
    requires '=' !in key
    ensures PairKey(key + "=" + rest) == key
  {
    if key != [] {
      assert (key + "=" + rest)[1..] == key[1..] + "=" + rest;
      PairKeyOf(key[1..], rest);
      assert [key[0]] + key[1..] == key;
    }
  }

  /** A pair whose key holds no '=' is read back as the key and the value. */
  lemma PairRoundTrip(key: string, value: string)
    requires '=' !in key
    ensures ParsePair(CreatePair(key, value)) == Some((key, value))
  {
    var r := CreatePair(key, value);
    assert r == key + "=" + ("\"" + value + "\"");
    PairKeyOf(key, "\"" + value + "\"");
    assert r[|key| + 2..|r| - 1] == value;
  }

  /** The authorization header. The operating system name and the host name,
      which the client asks the runtime for, are parameters here. When none of
      the three values holds a comma, the header reads back as its five pairs. */
  function CreateHeader(id: string, goos: string, host: string): (r: string)
    ensures ',' !in id && ',' !in goos && ',' !in host ==> ReadHeader(r) == Some(HeaderPairs(id, goos, host))
  {
    var h := AuthType + " " + CreatePair(AuthKeyUserId, id) + ", " + CreatePair(AuthKeyClient, "PC") + ", " +
             CreatePair(AuthKeyDevice, goos) + ", " + CreatePair(AuthKeyDeviceId, host) + ", " +
             CreatePair(AuthKeyVersion, "1.0.0.0");
    if ',' !in id && ',' !in goos && ',' !in host then
      HeaderTextJoined(AuthType + " " + CreatePair(AuthKeyUserId, id), CreatePair(AuthKeyClient, "PC"),
                       CreatePair(AuthKeyDevice, goos), CreatePair(AuthKeyDeviceId, host),
                       CreatePair(AuthKeyVersion, "1.0.0.0"));
      HeaderItemsPlain(id, goos, host);
      SplitJoin(',', HeaderItems(id, goos, host));
      HeaderItemsReadBack(id, goos, host);
      h
    else
      h
  }

  /** The key/value pairs the header carries, in order. */
  function HeaderPairs(id: string, goos: string, host: string): seq<(string, string)>
  {
    [(AuthKeyUserId, id), (AuthKeyClient, "PC"), (AuthKeyDevice, goos), (AuthKeyDeviceId, host),
     (AuthKeyVersion, "1.0.0.0")]
  }

  /** The five pairs of the header, each after the separator that precedes it. */
  function HeaderItems(id: string, goos: string, host: string): seq<string>
  {
    [AuthType + " " + CreatePair(AuthKeyUserId, id),
     " " + CreatePair(AuthKeyClient, "PC"),
     " " + CreatePair(AuthKeyDevice, goos),
     " " + CreatePair(AuthKeyDeviceId, host),
     " " + CreatePair(AuthKeyVersion, "1.0.0.0")]
  }

  /** The rest of `s` after `prefix`, when `s` starts with it. */
  function StripPrefix(prefix: string, s: string): Option<string>
  {
    if |prefix| <= |s| && s[..|prefix|] == prefix then Some(s[|prefix|..]) else None
  }

  /** Reads pieces that each hold a space and then a pair. */
  function ReadPairs(pieces: seq<string>): Option<seq<(string, string)>>
  {
    if pieces == [] then Some([])
    else
      var t := StripPrefix(" ", pieces[0]);
      var rest := ReadPairs(pieces[1..]);
      if t.Some? && ParsePair(t.value).Some? && rest.Some? then Some([ParsePair(t.value).value] + rest.value)
      else None
  }

  /** Reads the pieces of a header: the authorization type, a space and the
      first pair, then the remaining pairs. */
  function ReadPieces(pieces: seq<string>): Option<seq<(string, string)>>
  {
    if pieces == [] then None
    else
      var first := StripPrefix(AuthType + " ", pieces[0]);
      var rest := ReadPairs(pieces[1..]);
      if first.Some? && ParsePair(first.value).Some? && rest.Some? then Some([ParsePair(first.value).value] + rest.value)
      else None
  }

  /** Reads an authorization header back: split at its commas, then read the
      pieces. */
  function ReadHeader(h: string): Option<seq<(string, string)>>
  {
    ReadPieces(Split(',', h))
  }

  lemma StripPrefixOf(prefix: string, s: string)
    ensures StripPrefix(prefix, prefix + s) == Some(s)
  {
    assert (prefix + s)[..|prefix|] == prefix;
  }

  /** One more piece in front reads back as one more pair in front. */
  lemma ReadPairsCons(key: string, value: string, rest: seq<string>, ps: seq<(string, string)>)
    requires '=' !in key && ReadPairs(rest) == Some(ps)
    ensures ReadPairs([" " + CreatePair(key, value)] + rest) == Some([(key, value)] + ps)
  {
    var pieces := [" " + CreatePair(key, value)] + rest;
    assert pieces[0] == " " + CreatePair(key, value) && pieces[1..] == rest;
    StripPrefixOf(" ", CreatePair(key, value));
    PairRoundTrip(key, value);
  }

  /** The first piece in front of pieces that read back as pairs reads back
      as one more pair in front. */
  lemma ReadPiecesCons(key: string, value: string, rest: seq<string>, ps: seq<(string, string)>)
    requires '=' !in key && ReadPairs(rest) == Some(ps)
    ensures ReadPieces([AuthType + " " + CreatePair(key, value)] + rest) == Some([(key, value)] + ps)
  {
    var pieces := [AuthType + " " + CreatePair(key, value)] + rest;
    assert pieces[0] == AuthType + " " + CreatePair(key, value) && pieces[1..] == rest;
    StripPrefixOf(AuthType + " ", CreatePair(key, value));
    PairRoundTrip(key, value);
  }

  /** The five pieces of the header read back as its five pairs. */
  lemma HeaderItemsReadBack(id: string, goos: string, host: string)
    ensures ReadPieces(HeaderItems(id, goos, host)) == Some(HeaderPairs(id, goos, host))
  {
    var r4, p4 := [" " + CreatePair(AuthKeyVersion, "1.0.0.0")], [(AuthKeyVersion, "1.0.0.0")];
    ReadPairsCons(AuthKeyVersion, "1.0.0.0", [], []);
    assert r4 + [] == r4 && p4 + [] == p4;
    var r3, p3 := [" " + CreatePair(AuthKeyDeviceId, host)] + r4, [(AuthKeyDeviceId, host)] + p4;
    ReadPairsCons(AuthKeyDeviceId, host, r4, p4);
    var r2, p2 := [" " + CreatePair(AuthKeyDevice, goos)] + r3, [(AuthKeyDevice, goos)] + p3;
    ReadPairsCons(AuthKeyDevice, goos, r3, p3);
    var r1, p1 := [" " + CreatePair(AuthKeyClient, "PC")] + r2, [(AuthKeyClient, "PC")] + p2;
    ReadPairsCons(AuthKeyClient, "PC", r2, p2);
    ReadPiecesCons(AuthKeyUserId, id, r1, p1);
    FiveInFront(AuthType + " " + CreatePair(AuthKeyUserId, id), " " + CreatePair(AuthKeyClient, "PC"),
                " " + CreatePair(AuthKeyDevice, goos), " " + CreatePair(AuthKeyDeviceId, host),
                " " + CreatePair(AuthKeyVersion, "1.0.0.0"));
    FiveInFront((AuthKeyUserId, id), (AuthKeyClient, "PC"), (AuthKeyDevice, goos), (AuthKeyDeviceId, host),
                (AuthKeyVersion, "1.0.0.0"));
  }

  /** With values free of commas, the header splits at its commas into the
      authorization type with the first pair, and the four other pairs each
      after a space; the first three pairs read back. */
  lemma HeaderRoundTrip(id: string, goos: string, host: string)
    requires ',' !in id && ',' !in goos && ',' !in host
    ensures Split(',', CreateHeader(id, goos, host)) == HeaderItems(id, goos, host)
    ensures ParsePair(CreatePair(AuthKeyUserId, id)) == Some((AuthKeyUserId, id))
    ensures ParsePair(CreatePair(AuthKeyDevice, goos)) == Some((AuthKeyDevice, goos))
    ensures ParsePair(CreatePair(AuthKeyDeviceId, host)) == Some((AuthKeyDeviceId, host))
  {
    var xs := HeaderItems(id, goos, host);
    HeaderItemsPlain(id, goos, host);
    SplitJoin(',', xs);
    HeaderJoined(id, goos, host);
    PairRoundTrip(AuthKeyUserId, id);
    PairRoundTrip(AuthKeyDevice, goos);
    PairRoundTrip(AuthKeyDeviceId, host);
  }

  lemma HeaderItemsPlain(id: string, goos: string, host: string)
    requires ',' !in id && ',' !in goos && ',' !in host
    ensures forall i :: 0 <= i < |HeaderItems(id, goos, host)| ==> ',' !in HeaderItems(id, goos, host)[i]
  {
  }

  /** Five texts joined with "," after a space each but the first are the
      texts separated by ", ". */
  lemma HeaderTextJoined(a: string, b: string, c: string, d: string, e: string)
    ensures Join([','], [a, " " + b, " " + c, " " + d, " " + e]) == a + ", " + b + ", " + c + ", " + d + ", " + e
  {
    var xs := [a, " " + b, " " + c, " " + d, " " + e];
    JoinSnoc([','], [xs[0]], xs[1]);
    assert [xs[0]] + [xs[1]] == xs[..2];
    JoinSnoc([','], xs[..2], xs[2]);
    assert xs[..2] + [xs[2]] == xs[..3];
    JoinSnoc([','], xs[..3], xs[3]);
    assert xs[..3] + [xs[3]] == xs[..4];
    JoinSnoc([','], xs[..4], xs[4]);
    assert xs[..4] + [xs[4]] == xs;
  }

  /** The header is its items joined with ",". */
  lemma HeaderJoined(id: string, goos: string, host: string)
    ensures Join([','], HeaderItems(id, goos, host)) == CreateHeader(id, goos, host)
  {
    HeaderTextJoined(AuthType + " " + CreatePair(AuthKeyUserId, id), CreatePair(AuthKeyClient, "PC"),
                     CreatePair(AuthKeyDevice, goos), CreatePair(AuthKeyDeviceId, host),
                     CreatePair(AuthKeyVersion, "1.0.0.0"));
  }

  // ---------------------------------------------------------------------------
  // User lookup
  // ---------------------------------------------------------------------------

  /** Two user names are the same when their upper-cased forms are equal. */
  predicate SameName(a: string, b: string)
  {
    ToUpper(a) == ToUpper(b)
  }

  /** The position of the first user whose name is the same as `username`. */
  function FirstUserNamed(users: seq<UserDto>, username: string): (r: Option<nat>)
    ensures r.Some? ==> r.value < |users| && SameName(users[r.value].name, username)
    ensures r.Some? ==> forall j :: 0 <= j < r.value ==> !SameName(users[j].name, username)
    ensures r.None? ==> forall j :: 0 <= j < |users| ==> !SameName(users[j].name, username)
  {
    if users == [] then None
    else if SameName(users[0].name, username) then Some(0)
    else match FirstUserNamed(users[1..], username)
      case None => None
      case Some(i) => Some(i + 1)
  }

  /** The id of the first user with the given name, ignoring case; "" when no
      user has that name. */
  method FindUserIdByName(users: seq<UserDto>, username: string) returns (id: string)
    ensures id == match FirstUserNamed(users, username)
                  case Some(i) => users[i].id
                  case None => ""
  {
    var i := 0;
    while i < |users|
      invariant 0 <= i <= |users|
      invariant forall j :: 0 <= j < i ==> !SameName(users[j].name, username)
    {
      if ToUpper(users[i].name) == ToUpper(username) {
        return users[i].id;
      }
      i := i + 1;
    }
    return "";
  }

  /** Upper-casing twice is upper-casing once: a name matches its own
      upper-cased form. */
  lemma UpperIdempotent(s: string)
    ensures ToUpper(ToUpper(s)) == ToUpper(s)
    ensures SameName(s, ToUpper(s))
  {
  }

  // ---------------------------------------------------------------------------
  // Views filter
  // ---------------------------------------------------------------------------

  /** An item is offered as a view when its collection type is one the client
      can display. */
  predicate IsViewItem(item: BaseItemDto)
  {
    item.collectionType in AllowedCollectionTypes
  }

  function ViewOf(item: BaseItemDto): UserView
  {
    UserView(item.name, item.collectionType, item.id)
  }

  /** The views of the items of a displayable collection type, in item order. */
  function Views(items: seq<BaseItemDto>): (r: seq<UserView>)
  {
    if items == [] then []
    else Views(items[..|items| - 1]) +
         (if IsViewItem(items[|items| - 1]) then [ViewOf(items[|items| - 1])] else [])
  }

  /** The views are exactly the selected items, one view each, in item order,
      copying name, collection type and id. */
  lemma {:induction false} ViewsOfSelected(items: seq<BaseItemDto>)
    ensures |Views(items)| == |Filter(items, IsViewItem)|
    ensures forall k :: 0 <= k < |Views(items)| ==> Views(items)[k] == ViewOf(Filter(items, IsViewItem)[k])
  {
    if items != [] {
      ViewsOfSelected(items[..|items| - 1]);
    }
  }

  /** The views of a user's items: for each item, one view per allowed
      collection type it has. */
  method UserGetViews(items: seq<BaseItemDto>) returns (userViews: seq<UserView>)
    ensures userViews == Views(items)
  {
    userViews := [];
    var i := 0;
    while i < |items|
      invariant 0 <= i <= |items|
      invariant userViews == Views(items[..i])
    {
      var item := items[i];
      var k := 0;
      while k < |AllowedCollectionTypes|
        invariant 0 <= k <= |AllowedCollectionTypes|
        invariant userViews == Views(items[..i]) +
                    (if item.collectionType in AllowedCollectionTypes[..k] then [ViewOf(item)] else [])
      {
        if item.collectionType == AllowedCollectionTypes[k] {
          assert item.collectionType !in AllowedCollectionTypes[..k];
          userViews := userViews + [ViewOf(item)];
        }
        assert AllowedCollectionTypes[..k + 1] == AllowedCollectionTypes[..k] + [AllowedCollectionTypes[k]];
        k := k + 1;
      }
      assert AllowedCollectionTypes[..k] == AllowedCollectionTypes;
      assert items[..i + 1][..i] == items[..i];
      i := i + 1;
    }
    assert items[..i] == items;
  }

  // ---------------------------------------------------------------------------
  // Item-type filter
  // ---------------------------------------------------------------------------

  /** The item types a collection type keeps; none for any other collection type. */
  predicate KeepsItem(collectionType: string, item: BaseItemDto)
  {
    if collectionType == CollectionMovies then item.itemType == MovieType
    else if collectionType == CollectionTVShows then
      item.itemType == SeriesType || item.itemType == SeasonType || item.itemType == EpisodeType
    else if collectionType == CollectionHomeVideos then item.itemType == VideoType
    else false
  }

  function KeepsFor(collectionType: string): BaseItemDto -> bool
  {
    (item: BaseItemDto) => KeepsItem(collectionType, item)
  }

  /** The items of a collection whose type the collection type displays, in
      their order. */
  method FilterItems(items: seq<BaseItemDto>, collectionType: string) returns (result: seq<BaseItemDto>)
    ensures result == Filter(items, KeepsFor(collectionType))
  {
    result := [];
    var i := 0;
    while i < |items|
      invariant 0 <= i <= |items|
      invariant result == Filter(items[..i], KeepsFor(collectionType))
    {
      var item := items[i];
      FilterAppend(items[..i], item, KeepsFor(collectionType));
      assert items[..i + 1] == items[..i] + [item];
      if collectionType == CollectionMovies {
        if item.itemType == MovieType {
          result := result + [item];
        }
      } else if collectionType == CollectionTVShows {
        if item.itemType == SeriesType || item.itemType == SeasonType || item.itemType == EpisodeType {
          result := result + [item];
        }
      } else if collectionType == CollectionHomeVideos {
        if item.itemType == VideoType {
          result := result + [item];
        }
      }
      i := i + 1;
    }
    assert items[..i] == items;
  }

  /** An item is kept exactly when it is in the input with a type its collection
      type displays; any other collection type keeps nothing. */
  lemma KeptItems(items: seq<BaseItemDto>, collectionType: string, item: BaseItemDto)
    ensures item in Filter(items, KeepsFor(collectionType)) <==>
              item in items && KeepsItem(collectionType, item)
    ensures collectionType !in AllowedCollectionTypes ==> Filter(items, KeepsFor(collectionType)) == []
  {
    FilterMember(items, KeepsFor(collectionType), item);
    if collectionType !in AllowedCollectionTypes {
      FilterNone(items, KeepsFor(collectionType));
    }
  }
}
