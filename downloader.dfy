/** downloading/spotify_downloader.py: collecting the user's saved tracks
    page by page, and downloading one track's Deezer preview into a
    directory unless it is already there. Spotify's pages, Deezer's search
    answers and the preview download are oracles; the directory is an
    object whose files the download writes. */
module Downloader {
  import opened Values
  import opened Filenames
  import Deezer

  /** A saved-track item, as far as it is read: `item['track']['name']` and
      the names in `item['track']['artists']`. */
  datatype SavedTrack = SavedTrack(name: string, artists: seq<string>)

  /** One page of saved tracks: its `items` and its `next` link. */
  datatype Page = Page(items: seq<SavedTrack>, next: Option<string>)

  /** `results['next']` is truthy. */
  predicate HasNext(p: Page)
  {
    p.next.Some? && p.next.value != ""
  }

  /** Some page ends the pagination; `pages[0]` is the answer to
      `current_user_saved_tracks()` and `pages[k]` that of the k-th `sp.next`. */
  predicate PaginationEnds(pages: seq<Page>)
  {
    exists k :: 0 <= k < |pages| && !HasNext(pages[k])
  }

  /** The items of the given pages, page after page. */
  function Items(pages: seq<Page>): seq<SavedTrack>
  {
    if pages == [] then [] else Items(pages[..|pages| - 1]) + pages[|pages| - 1].items
  }

  /** How many of the given pages carry a next link. */
  function CountLinked(pages: seq<Page>): nat
  {
    if pages == [] then 0
    else CountLinked(pages[..|pages| - 1]) + if HasNext(pages[|pages| - 1]) then 1 else 0
  }

  lemma {:induction false} CountLinkedAll(pages: seq<Page>)
    requires forall j :: 0 <= j < |pages| ==> HasNext(pages[j])
    ensures CountLinked(pages) == |pages|
  {
    if pages != [] {
      CountLinkedAll(pages[..|pages| - 1]);
    }
  }

  /** `get_liked_songs(sp)`: fetches pages until one has no next link and
      returns all their items in page order; it calls `sp.next` once per
      fetched page that has a next link. */
  method GetLikedSongs(pages: seq<Page>) returns (tracks: seq<SavedTrack>, nextCalls: nat)
    requires PaginationEnds(pages)
    ensures nextCalls < |pages|
    ensures forall j :: 0 <= j < nextCalls ==> HasNext(pages[j])
    ensures !HasNext(pages[nextCalls])
    ensures tracks == Items(pages[..nextCalls + 1])
    ensures nextCalls == CountLinked(pages[..nextCalls + 1])
  {
    ghost var last :| 0 <= last < |pages| && !HasNext(pages[last]);
    var results := pages[0];
    tracks := results.items;
    nextCalls := 0;
    assert pages[..1] == [pages[0]];
    assert Items(pages[..1]) == Items([]) + pages[0].items;
    while HasNext(results)
      invariant nextCalls <= last
      invariant results == pages[nextCalls]
      invariant forall j :: 0 <= j < nextCalls ==> HasNext(pages[j])
      invariant tracks == Items(pages[..nextCalls + 1])
      decreases last - nextCalls
    {
      nextCalls := nextCalls + 1;
      results := pages[nextCalls];
      tracks := tracks + results.items;
      assert pages[..nextCalls + 1][..nextCalls] == pages[..nextCalls];
    }
    CountLinkedAll(pages[..nextCalls]);
    assert pages[..nextCalls + 1][..nextCalls] == pages[..nextCalls];
  }

  /** The answer to `requests.get(preview_url)`. */
  datatype Download = Download(status: int, content: seq<bv8>)

  /** The files of the file system, by path. */
  class FileSystem {
    var files: map<string, seq<bv8>>

    constructor (files: map<string, seq<bv8>>)
      ensures this.files == files
    {
      this.files := files;
    }

    /** `path.exists()` */
    predicate Exists(path: string)
      reads this
    {
      path in files
    }

    /** `open(path, 'wb').write(content)` */
    method Write(path: string, content: seq<bv8>)
      modifies this
      ensures files == old(files)[path := content]
    {
      files := files[path := content];
    }
  }

  /** `deezer_track['preview']` when `deezer_track.get('preview')` is a
      non-empty string. */
  function PreviewUrl(found: Option<Dict>): Option<string>
  {
    match found
    case None => None
    case Some(t) => if Get(t, "preview").Str? && Get(t, "preview").s != "" then Some(Get(t, "preview").s) else None
  }

  /** How a download ends; `NoArtist` is the IndexError of
      `track['track']['artists'][0]` on an empty artist list, which nothing
      catches. */
  datatype DownloadOutcome = NoArtist | AlreadyDownloaded | NoPreview | Downloaded | DownloadFailed(status: int)

  /** `download_preview(track, output_dir)`: a track without artists raises
      before anything else; an existing target file means no search and no
      write; otherwise one Deezer search, and the preview is written to
      `output_dir/get_safe_filename(...)` only when there is a preview link
      and its download answers 200. */
  method DownloadPreview(track: SavedTrack, outputDir: string, disk: FileSystem,
                         network: nat -> Deezer.Attempt, fetch: string -> Download)
    returns (outcome: DownloadOutcome, searchRequests: nat)
    modifies disk
    ensures |track.artists| == 0 ==>
              outcome == NoArtist && searchRequests == 0 && disk.files == old(disk.files)
    ensures |track.artists| > 0 ==>
            var path := Join(outputDir, SafeFilename(track.name, track.artists[0]));
            var run := Deezer.Search(network, Deezer.DefaultMaxRetries);
            var url := PreviewUrl(run.result);
            && (path in old(disk.files) ==>
                  outcome == AlreadyDownloaded && searchRequests == 0 && disk.files == old(disk.files))
            && (path !in old(disk.files) ==> searchRequests == run.requests)
            && (path !in old(disk.files) && url.None? ==>
                  outcome == NoPreview && disk.files == old(disk.files))
            && (path !in old(disk.files) && url.Some? && fetch(url.value).status == 200 ==>
                  outcome == Downloaded && disk.files == old(disk.files)[path := fetch(url.value).content])
            && (path !in old(disk.files) && url.Some? && fetch(url.value).status != 200 ==>
                  outcome == DownloadFailed(fetch(url.value).status) && disk.files == old(disk.files))
  {
    if |track.artists| == 0 {
      return NoArtist, 0;
    }
    var filename := SafeFilename(track.name, track.artists[0]);
    var filepath := Join(outputDir, filename);
    if disk.Exists(filepath) {
      return AlreadyDownloaded, 0;
    }
    var found, requests, _ := Deezer.SearchDeezerTrack(network);
    searchRequests := requests;
    var url := PreviewUrl(found);
    if url.None? {
      return NoPreview, searchRequests;
    }
    var response := fetch(url.value);
    if response.status == 200 {
      disk.Write(filepath, response.content);
      outcome := Downloaded;
    } else {
      outcome := DownloadFailed(response.status);
    }
  }
}
