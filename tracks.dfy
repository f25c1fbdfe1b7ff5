/**
 * The track record: one playable item with its metadata, its media-cache flag and its
 * artwork slot. `id` is the primary key: two objects with the same `id` are the same
 * logical track even when both live in memory.
 *
 * The on-disk cache (status lookups, paths, artwork files) is not modelled; its answers
 * reach the methods as parameters.
 */
module Tracks {
  import opened Optional
  import opened Payload

  /** An in-memory artwork image; `handle` only distinguishes one image from another. */
  datatype Image = Image(handle: nat)

  /** Where the player fetches the media from. */
  datatype TrackURL = FileURL(path: string) | RemoteURL(address: string)

  /** A track payload the parser can handle: every key it force-casts is there, with its type. */
  predicate WellFormedTrackResponse(r: map<string, Value>)
  {
    && HasStr(r, "title")
    && HasStr(r, "artist")
    && HasInt(r, "duration")
    && HasInt(r, "owner_id")
    && HasInt(r, "id")
    && HasStr(r, "url")
  }

  /** The optional "lyrics_id" of a payload: kept only when it is present as an integer. */
  function LyricsIDOf(r: map<string, Value>): (l: Option<int>)
    ensures l.Some? <==> HasInt(r, "lyrics_id")
    ensures l.Some? ==> l.value == r["lyrics_id"].i
  {
    if HasInt(r, "lyrics_id") then Some(r["lyrics_id"].i) else None
  }

  class Track {
    const title: string
    const artist: string
    const ownerID: int
    const duration: int
    const id: int
    const urlString: string
    const lyricsID: Option<int>
    /** The media file is in the local cache. */
    var isCached: bool
    /** The artwork file is in the local cache. */
    var isArtworkCached: bool
    /** The in-memory artwork slot. */
    var artworkImage: Option<Image>

    /** A fresh track with the given fields; the artwork-cached flag starts false. */
    constructor (title: string, artist: string, ownerID: int, duration: int, id: int,
                 urlString: string, isCached: bool, lyricsID: Option<int>,
                 artworkImage: Option<Image>)
      ensures this.title == title && this.artist == artist
      ensures this.ownerID == ownerID && this.duration == duration && this.id == id
      ensures this.urlString == urlString && this.isCached == isCached
      ensures this.lyricsID == lyricsID && this.artworkImage == artworkImage
      ensures !this.isArtworkCached
    {
      this.title := title;
      this.artist := artist;
      this.ownerID := ownerID;
      this.duration := duration;
      this.id := id;
      this.urlString := urlString;
      this.lyricsID := lyricsID;
      this.isCached := isCached;
      this.isArtworkCached := false;
      this.artworkImage := artworkImage;
    }

    /**
     * A track parsed from a response payload. `cacheStatus` is the cache oracle, asked
     * about the track by its ID once the other fields are set.
     */
    constructor FromResponse(response: map<string, Value>, cacheStatus: int -> bool)
      requires WellFormedTrackResponse(response)
      ensures ParsedFrom(response, cacheStatus)
      ensures !isArtworkCached && artworkImage.None?
    {
      title := response["title"].s;
      artist := response["artist"].s;
      duration := response["duration"].i;
      ownerID := response["owner_id"].i;
      id := response["id"].i;
      urlString := response["url"].s;
      lyricsID := LyricsIDOf(response);
      isCached := cacheStatus(response["id"].i);
      isArtworkCached := false;
      artworkImage := None;
    }

    /**
     * The fields the parser sets from `response`: each key to its field, the cache flag
     * from the oracle, and the lyrics ID only when "lyrics_id" is an integer.
     */
    predicate ParsedFrom(response: map<string, Value>, cacheStatus: int -> bool)
      reads this
      requires WellFormedTrackResponse(response)
    {
      && title == response["title"].s && artist == response["artist"].s
      && duration == response["duration"].i && ownerID == response["owner_id"].i
      && id == response["id"].i && urlString == response["url"].s
      && isCached == cacheStatus(response["id"].i)
      && (lyricsID.Some? <==> HasInt(response, "lyrics_id"))
      && (lyricsID.Some? ==> lyricsID.value == response["lyrics_id"].i)
    }

    /** All fields but `isArtworkCached` match those of `other`. */
    predicate SameFieldsAs(other: Track)
      reads this, other
    {
      && title == other.title && artist == other.artist
      && duration == other.duration && ownerID == other.ownerID
      && id == other.id && urlString == other.urlString
      && isCached == other.isCached && lyricsID == other.lyricsID
      && artworkImage == other.artworkImage
    }

    /**
     * The in-memory artwork, memoised. An image already in the slot is returned without
     * asking the cache. Otherwise the cache is asked only when both the media and the
     * artwork are cached (`coverOnDisk` is its answer), and an image found there is kept.
     */
    method ArtworkImage(coverOnDisk: Option<Image>) returns (image: Option<Image>)
      modifies this`artworkImage
      ensures old(artworkImage).Some? ==> image == old(artworkImage)
      ensures old(artworkImage).None? && isCached && isArtworkCached ==> image == coverOnDisk
      ensures old(artworkImage).None? && !(isCached && isArtworkCached) ==> image.None?
      ensures image.Some? ==> artworkImage == image
      ensures image.None? ==> artworkImage == old(artworkImage)
    {
      if artworkImage.Some? {
        image := artworkImage;
      } else if isCached && isArtworkCached {
        if coverOnDisk.Some? {
          artworkImage := coverOnDisk;
          image := artworkImage;
          return;
        }
        image := None;
      } else {
        image := None;
      }
    }

    /** Empties the in-memory artwork slot. */
    method ClearArtworkImage()
      modifies this`artworkImage
      ensures artworkImage.None?
    {
      artworkImage := None;
    }

    /**
     * Puts `image` into the in-memory slot and, for a cached track whose artwork is not
     * cached yet, writes it to the artwork cache. `writeSucceeded` is the outcome of that
     * write; `hasObservers` selects the path on which the flag is set on a persisted copy
     * rather than on this object.
     */
    method AddArtworkImage(image: Image, hasObservers: bool, writeSucceeded: bool)
      modifies this`artworkImage, this`isArtworkCached
      ensures artworkImage == Some(image)
      ensures !(isCached && !old(isArtworkCached)) ==> isArtworkCached == old(isArtworkCached)
      ensures isCached && !old(isArtworkCached) ==> isArtworkCached == (writeSucceeded && !hasObservers)
    {
      artworkImage := Some(image);
      if isCached && !isArtworkCached {
        if writeSucceeded {
          if !hasObservers {
            isArtworkCached := true;
          }
        }
      }
    }

    /** The media location: the cache file `cachePath` iff the track is cached, else its remote URL. */
    function URL(cachePath: string): (u: TrackURL)
      reads this
      ensures u.FileURL? <==> isCached
      ensures u.FileURL? ==> u.path == cachePath
      ensures u.RemoteURL? ==> u.address == urlString
    {
      if isCached then FileURL(cachePath) else RemoteURL(urlString)
    }

    /** A fresh track with this one's fields, except that its artwork is not marked cached. */
    method Copy() returns (c: Track)
      ensures fresh(c)
      ensures c.SameFieldsAs(this)
      ensures !c.isArtworkCached
    {
      c := new Track(title, artist, ownerID, duration, id, urlString, isCached, lyricsID, artworkImage);
    }
  }
}
