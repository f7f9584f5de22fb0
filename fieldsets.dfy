/** The field list the client asks the server for, per collection type. */
module FieldSets {
  import opened Text
  import opened Emby
  import opened Summaries

  const MovieFields: seq<string> := [
    "Name", "OriginalTitle", "MediaSources", "Path", "Genres", "ProductionYear", "People", "Studios",
    "Width", "Height", "Container", "RunTimeTicks", "Type_"]

  const TVShowFields: seq<string> := [
    "Name", "MediaSources", "Path", "Genres", "ProductionYear", "People", "Studios",
    "Width", "Height", "Container", "RunTimeTicks", "SeriesId", "SeasonId", "Id",
    "ParentId", "IndexNumber", "Type_"]

  const HomeVideoFields: seq<string> := [
    "Name", "MediaSources", "Path", "Width", "Height", "Container", "RunTimeTicks", "Type_"]

  /** The fixed field table of a collection type; none for any other type. */
  function FieldTable(collectionType: string): seq<string>
  {
    if collectionType == CollectionMovies then MovieFields
    else if collectionType == CollectionTVShows then TVShowFields
    else if collectionType == CollectionHomeVideos then HomeVideoFields
    else []
  }

  /** A character of a field name: an ASCII letter or the underscore. */
  predicate NameChar(ch: char)
  {
    'A' <= ch <= 'Z' || 'a' <= ch <= 'z' || ch == '_'
  }

  /** A field name is not empty and is made of name characters only, so it holds
      neither the list separator "," nor the query separator "&". */
  predicate PlainNames(fields: seq<string>)
  {
    forall i :: 0 <= i < |fields| ==>
      fields[i] != "" && forall k :: 0 <= k < |fields[i]| ==> NameChar(fields[i][k])
  }

  /** No field name is empty, and each is made of name characters. */
  lemma FieldNamesPlain(collectionType: string)
    ensures PlainNames(FieldTable(collectionType))
  {
    if collectionType == CollectionMovies {
      MovieNamesPlain();
    } else if collectionType == CollectionTVShows {
      TVShowNamesPlain();
    } else if collectionType == CollectionHomeVideos {
      HomeVideoNamesPlain();
    }
  }

  lemma MovieNamesPlain() ensures PlainNames(MovieFields) {}
  lemma TVShowNamesPlain() ensures PlainNames(TVShowFields) {}
  lemma HomeVideoNamesPlain() ensures PlainNames(HomeVideoFields) {}

  /** GetFields: the collection type's fields joined with "," (no spaces, no
      leading comma), or "" for a collection type it does not know. */
  method GetFields(collectionType: string) returns (m: string)
    ensures m == Join(",", FieldTable(collectionType))
  {
    m := "";
    var fields := FieldTable(collectionType);
    FieldNamesPlain(collectionType);
    var i := 0;
    while i < |fields|
      invariant 0 <= i <= |fields|
      invariant m == SeparatedList(",", fields[..i])
    {
      AppendSeparatedStep(",", fields[..i], fields[i]);
      assert fields[..i + 1] == fields[..i] + [fields[i]];
      m := CommaStringNoSpace(m, fields[i]);
      i := i + 1;
    }
    assert fields[..i] == fields;
    SeparatedListOfNonEmpty(",", fields);
  }

  /** Splitting the field list at its commas gives back the table of a known
      collection type; an unknown one gets the empty list. */
  lemma FieldListRoundTrip(collectionType: string)
    ensures FieldTable(collectionType) != [] ==>
              Split(',', Join(",", FieldTable(collectionType))) == FieldTable(collectionType)
    ensures FieldTable(collectionType) == [] <==>
              collectionType !in {CollectionMovies, CollectionTVShows, CollectionHomeVideos}
    ensures FieldTable(collectionType) == [] ==> Join(",", FieldTable(collectionType)) == ""
  {
    FieldNamesPlain(collectionType);
    if FieldTable(collectionType) != [] {
      SplitJoin(',', FieldTable(collectionType));
    }
  }

  /** Every collection type asks for the item type, which the item filter reads. */
  lemma FieldsIncludeType(collectionType: string)
    requires collectionType in {CollectionMovies, CollectionTVShows, CollectionHomeVideos}
    ensures "Type_" in FieldTable(collectionType)
  {
  }
}
