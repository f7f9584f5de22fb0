/** The summary helpers of the display-data derivation: runtime, resolution,
    codec pair, and the capped or joined lists of people, studios and genres.
    The helpers that the program writes as loops are methods, each proved
    against a function that says what it computes. */
module Summaries {
  import opened Text
  import opened Seqs
  import opened Emby

  /** Caps on the number of names kept per item. */
  const MaxActors: nat := 5
  const MaxDirectors: nat := 2
  const MaxStudios: nat := 1

  /** Stands in for a codec that is missing or empty. */
  const PlaceHolder := "-"

  const TicksPerSecond: nat := 10_000_000

  // ---------------------------------------------------------------------------
  // Separated lists
  // ---------------------------------------------------------------------------

  /** `item` appended to `source`, with `sep` in between unless `source` is still empty. */
  function AppendSeparated(sep: string, source: string, item: string): string
  {
    if source != "" then source + sep + item else item
  }

  /** commaString: appends with ", ". */
  function CommaString(source: string, item: string): (r: string)
    ensures r == CommaList([source, item])
  {
    AppendSeparatedPair(", ", source, item);
    AppendSeparated(", ", source, item)
  }

  /** commaStringNoSpace: appends with ",". */
  function CommaStringNoSpace(source: string, item: string): (r: string)
    ensures r == SeparatedList(",", [source, item])
  {
    AppendSeparatedPair(",", source, item);
    AppendSeparated(",", source, item)
  }

  /** What appending every element of `xs` in turn to "" builds: an empty string
      appended to an empty accumulator leaves it empty, so leading empty
      elements vanish and the rest are joined with `sep`. */
  function SeparatedList(sep: string, xs: seq<string>): string
  {
    Join(sep, DropLeadingEmpty(xs))
  }

  function CommaList(xs: seq<string>): string
  {
    SeparatedList(", ", xs)
  }

  /** Appending one item to one text is the separated list of the two. */
  lemma AppendSeparatedPair(sep: string, source: string, item: string)
    ensures AppendSeparated(sep, source, item) == SeparatedList(sep, [source, item])
  {
    var xs := [source, item];
    assert xs[1..] == [item] && [item][1..] == [];
    if source == "" {
      assert DropLeadingEmpty(xs) == DropLeadingEmpty([item]);
    } else {
      assert DropLeadingEmpty(xs) == xs && xs[..1] == [source];
      assert Join(sep, xs) == Join(sep, [source]) + sep + item;
    }
  }

  /** One more append extends the list by one element. */
  lemma {:induction false} AppendSeparatedStep(sep: string, xs: seq<string>, x: string)
    ensures AppendSeparated(sep, SeparatedList(sep, xs), x) == SeparatedList(sep, xs + [x])
  {
    DropLeadingEmptyAppend(xs, x);
    var d := DropLeadingEmpty(xs);
    if d != [] {
      JoinNonEmpty(sep, d);
      assert (d + [x])[..|d|] == d;
    }
  }

  /** When no element is empty, the separated list is the plain join. */
  lemma SeparatedListOfNonEmpty(sep: string, xs: seq<string>)
    requires forall i :: 0 <= i < |xs| ==> xs[i] != ""
    ensures SeparatedList(sep, xs) == Join(sep, xs)
  {
  }

  // ---------------------------------------------------------------------------
  // Genres
  // ---------------------------------------------------------------------------

  /** evalGenres: every genre, in order, comma-separated. */
  method EvalGenres(genres: seq<string>) returns (s: string)
    ensures s == CommaList(genres)
  {
    s := "";
    var i := 0;
    while i < |genres|
      invariant 0 <= i <= |genres|
      invariant s == CommaList(genres[..i])
    {
      AppendSeparatedStep(", ", genres[..i], genres[i]);
      assert genres[..i + 1] == genres[..i] + [genres[i]];
      s := CommaString(s, genres[i]);
      i := i + 1;
    }
    assert genres[..i] == genres;
  }

  // ---------------------------------------------------------------------------
  // Studios
  // ---------------------------------------------------------------------------

  function StudioNames(studios: seq<NameLongIdPair>): seq<string>
  {
    seq(|studios|, i requires 0 <= i < |studios| => studios[i].name)
  }

  /** The studios an item shows: the first MaxStudios of them, comma-separated. */
  function StudiosSummary(studios: seq<NameLongIdPair>): string
  {
    CommaList(Take(StudioNames(studios), MaxStudios))
  }

  /** evalStudios: the loop stops once the cap is passed. */
  method EvalStudios(studios: seq<NameLongIdPair>) returns (s: string)
    ensures s == StudiosSummary(studios)
    ensures s == if studios == [] then "" else studios[0].name
  {
    s := "";
    var i := 0;
    while i < |studios|
      invariant 0 <= i <= |studios| && i <= MaxStudios
      invariant s == CommaList(StudioNames(studios)[..i])
    {
      if i + 1 > MaxStudios {
        break;
      }
      AppendSeparatedStep(", ", StudioNames(studios)[..i], studios[i].name);
      assert StudioNames(studios)[..i + 1] == StudioNames(studios)[..i] + [studios[i].name];
      s := CommaString(s, studios[i].name);
      i := i + 1;
    }
    assert StudioNames(studios)[..i] == Take(StudioNames(studios), MaxStudios);
    assert studios != [] ==> StudioNames(studios)[..i] == [studios[0].name];
  }

  // ---------------------------------------------------------------------------
  // People
  // ---------------------------------------------------------------------------

  /** The names of the people of type `t`, in order. */
  function NamesWithType(people: seq<BaseItemPerson>, t: PersonType): (names: seq<string>)
    ensures |names| <= |people|
  {
    if people == [] then []
    else
      var p := people[|people| - 1];
      NamesWithType(people[..|people| - 1], t) + (if p.personType == t then [p.name] else [])
  }

  lemma {:induction false} NamesWithTypeAppend(a: seq<BaseItemPerson>, b: seq<BaseItemPerson>, t: PersonType)
    ensures NamesWithType(a + b, t) == NamesWithType(a, t) + NamesWithType(b, t)
  {
    if b == [] {
      assert a + b == a;
    } else {
      var b', last := b[..|b| - 1], b[|b| - 1];
      NamesWithTypeAppend(a, b', t);
      var ab := a + b;
      assert ab[..|ab| - 1] == a + b' && ab[|ab| - 1] == last;
      assert NamesWithType(ab, t) == NamesWithType(a + b', t) + (if last.personType == t then [last.name] else []);
    }
  }

  /** The actors and directors an item shows: the first MaxActors actors and the
      first MaxDirectors directors, each in input order and comma-separated. */
  function PeopleSummary(people: seq<BaseItemPerson>): (string, string)
  {
    (CommaList(Take(NamesWithType(people, Actor), MaxActors)),
     CommaList(Take(NamesWithType(people, Director), MaxDirectors)))
  }

  /** Once both caps are passed, the people that follow change nothing: the
      early exit of evalPeople is harmless. */
  lemma PeopleSummaryPastCaps(people: seq<BaseItemPerson>, rest: seq<BaseItemPerson>)
    requires |NamesWithType(people, Actor)| > MaxActors
    requires |NamesWithType(people, Director)| > MaxDirectors
    ensures PeopleSummary(people + rest) == PeopleSummary(people)
  {
    NamesWithTypeAppend(people, rest, Actor);
    NamesWithTypeAppend(people, rest, Director);
    TakeAppendFull(NamesWithType(people, Actor), NamesWithType(rest, Actor), MaxActors);
    TakeAppendFull(NamesWithType(people, Director), NamesWithType(rest, Director), MaxDirectors);
  }

  /** One more person extends the list of its own type while that list is below
      its cap and leaves everything else as it was. */
  lemma PeopleStep(people: seq<BaseItemPerson>, p: BaseItemPerson, t: PersonType, cap: nat)
    ensures var before := NamesWithType(people, t);
            var after := NamesWithType(people + [p], t);
            && |after| == |before| + (if p.personType == t then 1 else 0)
            && CommaList(Take(after, cap)) ==
               if p.personType == t && |after| <= cap then CommaString(CommaList(Take(before, cap)), p.name)
               else CommaList(Take(before, cap))
  {
    var before := NamesWithType(people, t);
    var after := NamesWithType(people + [p], t);
    assert (people + [p])[..|people|] == people;
    assert after == before + (if p.personType == t then [p.name] else []);
    if p.personType == t {
      if |before| < cap {
        TakeAppendShort(before, p.name, cap);
        AppendSeparatedStep(", ", Take(before, cap), p.name);
        assert Take(after, cap) == Take(before, cap) + [p.name];
        assert CommaList(Take(after, cap)) == CommaString(CommaList(Take(before, cap)), p.name);
      } else {
        TakeAppendFull(before, [p.name], cap);
      }
    } else {
      assert after == before;
    }
  }

  /** evalPeople: one pass over the people with a counter per type; the pass
      stops early once both counters are past their caps. */
  method EvalPeople(people: seq<BaseItemPerson>) returns (actors: string, directors: string)
    ensures (actors, directors) == PeopleSummary(people)
  {
    actors, directors := "", "";
    var countActors, countDirectors := 0, 0;
    var i := 0;
    while i < |people|
      invariant 0 <= i <= |people|
      invariant countActors == |NamesWithType(people[..i], Actor)|
      invariant countDirectors == |NamesWithType(people[..i], Director)|
      invariant actors == CommaList(Take(NamesWithType(people[..i], Actor), MaxActors))
      invariant directors == CommaList(Take(NamesWithType(people[..i], Director), MaxDirectors))
    {
      var p := people[i];
      assert people[..i + 1] == people[..i] + [p];
      countActors, actors := CountPerson(people[..i], p, Actor, MaxActors, countActors, actors);
      countDirectors, directors := CountPerson(people[..i], p, Director, MaxDirectors, countDirectors, directors);
      i := i + 1;
      if countActors > MaxActors && countDirectors > MaxDirectors {
        PeopleSummaryOfPrefix(people, i);
        return;
      }
    }
    PeopleSummaryOfPrefix(people, i);
  }

  /** The summary of the people seen so far is the summary of all of them, once
      all are seen or both caps are passed. */
  lemma PeopleSummaryOfPrefix(people: seq<BaseItemPerson>, i: nat)
    requires i <= |people|
    requires i == |people| ||
             (|NamesWithType(people[..i], Actor)| > MaxActors && |NamesWithType(people[..i], Director)| > MaxDirectors)
    ensures PeopleSummary(people) ==
            (CommaList(Take(NamesWithType(people[..i], Actor), MaxActors)),
             CommaList(Take(NamesWithType(people[..i], Director), MaxDirectors)))
  {
    if i == |people| {
      assert people[..i] == people;
    } else {
      PeopleSummaryPastCaps(people[..i], people[i..]);
      assert people[..i] + people[i..] == people;
    }
  }

  /** One person, for one role: the role's counter goes up when the person has
      that role, and the name is appended while the counter is within the cap. */
  method CountPerson(ghost people: seq<BaseItemPerson>, p: BaseItemPerson, t: PersonType, cap: nat,
                     count: nat, names: string)
    returns (count': nat, names': string)
    requires count == |NamesWithType(people, t)|
    requires names == CommaList(Take(NamesWithType(people, t), cap))
    ensures count' == |NamesWithType(people + [p], t)|
    ensures names' == CommaList(Take(NamesWithType(people + [p], t), cap))
  {
    PeopleStep(people, p, t, cap);
    count', names' := count, names;
    if p.personType == t {
      count' := count + 1;
      if count' <= cap {
        names' := CommaString(names, p.name);
      }
    }
  }

  // ---------------------------------------------------------------------------
  // Codecs
  // ---------------------------------------------------------------------------

  /** The codec of the last stream of type `t`, or "" when there is none. */
  function LastCodec(streams: seq<MediaStream>, t: MediaStreamType): string
  {
    if streams == [] then ""
    else if streams[|streams| - 1].streamType == t then streams[|streams| - 1].codec
    else LastCodec(streams[..|streams| - 1], t)
  }

  /** LastCodec gives the codec of a stream of type `t` that no later stream of
      type `t` follows. */
  lemma {:induction false} LastCodecAt(streams: seq<MediaStream>, t: MediaStreamType, i: nat)
    requires i < |streams| && streams[i].streamType == t
    requires forall j :: i < j < |streams| ==> streams[j].streamType != t
    ensures LastCodec(streams, t) == streams[i].codec
  {
    if i < |streams| - 1 {
      LastCodecAt(streams[..|streams| - 1], t, i);
    }
  }

  /** LastCodec gives "" when no stream has type `t`. */
  lemma {:induction false} LastCodecNone(streams: seq<MediaStream>, t: MediaStreamType)
    requires forall j :: 0 <= j < |streams| ==> streams[j].streamType != t
    ensures LastCodec(streams, t) == ""
  {
    if streams != [] {
      LastCodecNone(streams[..|streams| - 1], t);
    }
  }

  function OrPlaceHolder(codec: string): string
  {
    if codec == "" then PlaceHolder else codec
  }

  /** The codec pair shown for an item: from the first media source only, the
      codec of its last video stream and of its last audio stream, each replaced
      by the placeholder when missing or empty; "" when there is no media source. */
  function CodecPair(media: seq<MediaSourceInfo>): string
  {
    if media == [] then ""
    else
      var streams := media[0].mediaStreams;
      OrPlaceHolder(LastCodec(streams, VideoStream)) + ", " + OrPlaceHolder(LastCodec(streams, AudioStream))
  }

  /** evalCodecs. The program ranges over the media sources and leaves the loop
      at the end of its first round, so only the first source is ever read. */
  method EvalCodecs(media: seq<MediaSourceInfo>) returns (codecs: string)
    ensures codecs == CodecPair(media)
    ensures codecs == "" <==> media == []
  {
    codecs := "";
    var codecVideo, codecAudio := "", "";
    if media != [] {
      var streams := media[0].mediaStreams;
      var j := 0;
      while j < |streams|
        invariant 0 <= j <= |streams|
        invariant codecVideo == LastCodec(streams[..j], VideoStream)
        invariant codecAudio == LastCodec(streams[..j], AudioStream)
      {
        assert streams[..j + 1][..j] == streams[..j];
        if streams[j].streamType == VideoStream {
          codecVideo := streams[j].codec;
        }
        if streams[j].streamType == AudioStream {
          codecAudio := streams[j].codec;
        }
        j := j + 1;
      }
      assert streams[..j] == streams;
      if codecVideo == "" {
        codecVideo := PlaceHolder;
      }
      if codecAudio == "" {
        codecAudio := PlaceHolder;
      }
      codecs := codecVideo + ", " + codecAudio;
    }
  }

  // ---------------------------------------------------------------------------
  // Runtime
  // ---------------------------------------------------------------------------

  /** "<hours>h<minutes>m", a zero part left out. */
  function HoursMinutesText(hours: nat, minutes: nat): string
  {
    (if hours > 0 then IntToString(hours) + "h" else "") +
    (if minutes > 0 then IntToString(minutes) + "m" else "")
  }

  /** evalRuntime: the run time in whole hours and remaining whole minutes, a
      zero part left out; "" for a non-positive tick count. */
  function EvalRuntime(ticks: int64): (s: string)
    ensures ticks <= 0 ==> s == ""
    ensures s == "" <==> ticks < 60 * TicksPerSecond
  {
    if ticks > 0 then
      var r := ticks / TicksPerSecond;
      HoursMinutesText(r / 3600, (r % 3600) / 60)
    else ""
  }

  /** The whole minutes in a positive run time. */
  function WholeMinutes(ticks: int64): nat
    requires ticks > 0
  {
    ticks / TicksPerSecond / 60
  }

  /** Reads a rendering "<h>h<m>m", either part optional, back as its hours and minutes. */
  function ReadRuntime(s: string): Option<(nat, nat)>
  {
    var parts := Split('h', s);
    if |parts| > 2 then None
    else
      var hours := if |parts| == 2 then ReadNat(parts[0]) else Some(0);
      var rest := parts[|parts| - 1];
      var minutes := ReadMinutes(rest);
      if hours.None? || minutes.None? then None else Some((hours.value, minutes.value))
  }

  /** Reads the part after the hours: empty, or a number followed by 'm'. */
  function ReadMinutes(rest: string): Option<nat>
  {
    if rest == "" then Some(0)
    else if rest[|rest| - 1] == 'm' then ReadNat(rest[..|rest| - 1])
    else None
  }

  lemma ReadMinutesOf(minutes: nat)
    ensures ReadMinutes(NatToString(minutes) + "m") == Some(minutes)
  {
    var rest := NatToString(minutes) + "m";
    assert rest[..|rest| - 1] == NatToString(minutes);
    ReadNatToString(minutes);
  }

  lemma HoursAndMinutes(r: nat)
    ensures r / 3600 == r / 60 / 60
    ensures (r % 3600) / 60 == r / 60 % 60
  {
    var q, t := r / 3600, r % 3600;
    var u, v := t / 60, t % 60;
    assert r == 60 * (60 * q + u) + v;
    assert r / 60 == 60 * q + u;
  }

  lemma ReadBoth(hours: nat, minutes: nat)
    requires hours > 0 && minutes > 0
    ensures ReadRuntime(HoursMinutesText(hours, minutes)) == Some((hours, minutes))
  {
    var hs, ms := NatToString(hours), NatToString(minutes);
    var rest := ms + "m";
    assert HoursMinutesText(hours, minutes) == Join("h", [hs, rest]);
    SplitJoin('h', [hs, rest]);
    ReadNatToString(hours);
    ReadMinutesOf(minutes);
  }

  lemma ReadHoursOnly(hours: nat)
    requires hours > 0
    ensures ReadRuntime(HoursMinutesText(hours, 0)) == Some((hours, 0))
  {
    var hs := NatToString(hours);
    assert HoursMinutesText(hours, 0) == Join("h", [hs, ""]);
    SplitJoin('h', [hs, ""]);
    ReadNatToString(hours);
  }

  lemma ReadMinutesOnly(minutes: nat)
    requires minutes > 0
    ensures ReadRuntime(HoursMinutesText(0, minutes)) == Some((0, minutes))
  {
    var rest := NatToString(minutes) + "m";
    assert HoursMinutesText(0, minutes) == rest;
    SplitWithout('h', rest);
    ReadMinutesOf(minutes);
  }

  /** Reading back "<h>h<m>m" gives h and m. */
  lemma ReadHoursMinutes(hours: nat, minutes: nat)
    ensures ReadRuntime(HoursMinutesText(hours, minutes)) == Some((hours, minutes))
  {
    if hours > 0 && minutes > 0 {
      ReadBoth(hours, minutes);
    } else if hours > 0 {
      ReadHoursOnly(hours);
    } else if minutes > 0 {
      ReadMinutesOnly(minutes);
    } else {
      assert HoursMinutesText(hours, minutes) == "";
      assert Split('h', "") == [""];
    }
  }

  /** Reading the rendering back gives the whole minutes of the run time split
      into hours and minutes: only the seconds are lost. */
  lemma RuntimeRoundTrip(ticks: int64)
    requires ticks > 0
    ensures ReadRuntime(EvalRuntime(ticks)) == Some((WholeMinutes(ticks) / 60, WholeMinutes(ticks) % 60))
  {
    var r := ticks / TicksPerSecond;
    HoursAndMinutes(r);
    ReadHoursMinutes(r / 3600, (r % 3600) / 60);
  }

  lemma RuntimeExamples()
    ensures EvalRuntime(36_000_000_000) == "1h"
    ensures EvalRuntime(54_000_000_000) == "1h30m"
    ensures EvalRuntime(27_000_000_000) == "45m"
    ensures EvalRuntime(599_999_999) == ""
    ensures EvalRuntime(0) == "" && EvalRuntime(-1) == ""
  {
    assert NatToString(30) == "30" by { assert NatToString(3) == "3"; }
    assert NatToString(45) == "45" by { assert NatToString(4) == "4"; }
  }

  // ---------------------------------------------------------------------------
  // Resolution
  // ---------------------------------------------------------------------------

  /** evalResolution: "<w>x<h>" when both dimensions are positive, else "". */
  function EvalResolution(w: int32, h: int32): (r: string)
    ensures r != "" <==> w > 0 && h > 0
  {
    if w > 0 && h > 0 then IntToString(w) + "x" + IntToString(h) else ""
  }

  /** The rendering splits at its one 'x' into the two dimensions. */
  lemma ResolutionRoundTrip(w: int32, h: int32)
    requires w > 0 && h > 0
    ensures var parts := Split('x', EvalResolution(w, h));
            |parts| == 2 && ReadNat(parts[0]) == Some(w as nat) && ReadNat(parts[1]) == Some(h as nat)
  {
    var ws, hs := NatToString(w as nat), NatToString(h as nat);
    assert EvalResolution(w, h) == Join("x", [ws, hs]);
    SplitJoin('x', [ws, hs]);
    ReadNatToString(w as nat);
    ReadNatToString(h as nat);
  }
}
