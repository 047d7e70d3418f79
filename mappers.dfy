/** Turning the endpoint's binding rows into entity records. */
module Mappers {
  import opened Js
  import opened Entities

  /**
   * `getChart`'s row mapper: one ChartPosition per row, pushed in row order,
   * with no dedup and no re-sorting.
   */
  method MapChart(rows: seq<Row>) returns (chart: seq<ChartPosition>)
    ensures |chart| == |rows|
    ensures forall i :: 0 <= i < |rows| ==>
      && chart[i].position == Get(rows[i], "?position")
      && chart[i].songId == Get(rows[i], "?id")
      && chart[i].songName == Get(rows[i], "?name")
      && chart[i].artistName == Get(rows[i], "?name1")
  {
    chart := [];
    for n := 0 to |rows|
      invariant |chart| == n
      invariant forall i :: 0 <= i < n ==>
        && chart[i].position == Get(rows[i], "?position")
        && chart[i].songId == Get(rows[i], "?id")
        && chart[i].songName == Get(rows[i], "?name")
        && chart[i].artistName == Get(rows[i], "?name1")
    {
      var item := rows[n];
      chart := chart + [ChartPosition(Get(item, "?position"), Get(item, "?id"), Get(item, "?name"), Get(item, "?name1"))];
    }
  }

  /** `getSongRankings`'s row mapper: one SongRank per row, in row order. */
  method MapRankings(rows: seq<Row>) returns (rankings: seq<SongRank>)
    ensures |rankings| == |rows|
    ensures forall i :: 0 <= i < |rows| ==>
      && rankings[i].datePublished == Get(rows[i], "?datePublished")
      && rankings[i].position == Get(rows[i], "?position")
  {
    rankings := [];
    for n := 0 to |rows|
      invariant |rankings| == n
      invariant forall i :: 0 <= i < n ==>
        && rankings[i].datePublished == Get(rows[i], "?datePublished")
        && rankings[i].position == Get(rows[i], "?position")
    {
      var ranking := rows[n];
      rankings := rankings + [SongRank(Get(ranking, "?datePublished"), Get(ranking, "?position"))];
    }
  }

  /** `getSongMedia`'s row mapper: one MediaItem per row, in row order. */
  method MapMedia(rows: seq<Row>) returns (media: seq<MediaItem>)
    ensures |media| == |rows|
    ensures forall i :: 0 <= i < |rows| ==>
      && media[i].url == Get(rows[i], "?url")
      && media[i].name == Get(rows[i], "?name")
      && media[i].thumbnail == Get(rows[i], "?thumbnail")
  {
    media := [];
    for n := 0 to |rows|
      invariant |media| == n
      invariant forall i :: 0 <= i < n ==>
        && media[i].url == Get(rows[i], "?url")
        && media[i].name == Get(rows[i], "?name")
        && media[i].thumbnail == Get(rows[i], "?thumbnail")
    {
      var mediaObj := rows[n];
      media := media + [MediaItem(Get(mediaObj, "?url"), Get(mediaObj, "?name"), Get(mediaObj, "?thumbnail"))];
    }
  }

  /**
   * `getSongInfo`'s row mapper: builds the Song from the first row only, with the
   * caller's id. With no rows, `rows[0]` is `undefined` and reading a property of it throws.
   */
  function SongInfo(id: string, rows: seq<Row>): (r: Result<Song>)
    ensures r.Success? <==> |rows| > 0
    ensures r.Failure? ==> r.error == TypeError
    ensures r.Success? ==> r.value.id == id
  {
    if |rows| == 0 then
      Failure(TypeError)
    else
      var result := rows[0];
      Success(Song(id, Get(result, "?name"), Get(result, "?name1"), Get(result, "?album_name"),
                   Get(result, "?albumRelease"), Get(result, "?duration"), Get(result, "?url"), Get(result, "?image")))
  }

  /** Each Song field after the id comes from its own query variable of the first row. */
  lemma SongInfoFields(id: string, rows: seq<Row>)
    requires |rows| > 0
    ensures var s := SongInfo(id, rows).value;
      && s.name == Get(rows[0], "?name")
      && s.artistName == Get(rows[0], "?name1")
      && s.albumName == Get(rows[0], "?album_name")
      && s.albumReleaseDate == Get(rows[0], "?albumRelease")
      && s.duration == Get(rows[0], "?duration")
      && s.url == Get(rows[0], "?url")
      && s.imageUrl == Get(rows[0], "?image")
  {
  }

  /** Rows after the first never affect the Song. */
  lemma SongInfoFirstRowOnly(id: string, rows: seq<Row>, others: seq<Row>)
    requires |rows| > 0 && |others| > 0 && rows[0] == others[0]
    ensures SongInfo(id, rows) == SongInfo(id, others)
  {
  }

  /** The Song's id is the caller's: rebinding, or dropping, the row's `?id` changes nothing. */
  lemma SongInfoIdFromCaller(id: string, rows: seq<Row>, other: string)
    requires |rows| > 0
    ensures SongInfo(id, rows) == SongInfo(id, [rows[0]["?id" := other]])
    ensures SongInfo(id, rows) == SongInfo(id, [rows[0] - {"?id"}])
  {
  }
}
