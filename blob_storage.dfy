/**
 * `AzureBlobStorageOperations` over an in-memory container: a map from blob
 * name to its stored content. Reading the local file and writing the
 * downloaded copy are I/O; the file's content comes in as a parameter and the
 * download reports the path and content it would write.
 */
module BlobStorage {
  import opened Wrappers
  import opened Strings

  /** The RuntimeError that `ensure_initialized` raises. */
  const NotInitialized := "Azure Blob Storage client not initialized"

  /** The error `open(file_path, "rb")` raises for a missing file. */
  const FileNotFound := "FileNotFoundError"

  /** A stored blob: its bytes (as text) and the content type it was uploaded with. */
  datatype Blob = Blob(content: string, contentType: Option<string>)

  /** What `download_blob` leaves on disk: the output path and the bytes written to it. */
  datatype Download = Download(path: string, content: string)

  // ---------------------------------------------------------------------
  // Blob names

  /** Lines 74-75: the name `upload_text` stores under ends in ".txt", adding it only when missing. */
  function TextBlobName(name: string): (r: string)
    ensures EndsWith(r, ".txt")
    ensures |name| <= |r| && r[..|name|] == name
    ensures r == name <==> EndsWith(name, ".txt")
  {
    if EndsWith(name, ".txt") then name else name + ".txt"
  }

  /** Naming a text blob twice is naming it once. */
  lemma TextBlobNameIdempotent(name: string)
    ensures TextBlobName(TextBlobName(name)) == TextBlobName(name)
  {
  }

  /** Line 157: blobs that `delete_blob` refuses to remove. */
  predicate Protected(name: string)
  {
    StartsWith(name, "transcripts/") || Contains(name, "_transcript")
  }

  /** Lines 39-40: no name, or an empty one, falls back to `Path(file_path).name`. */
  function UploadName(path: string, blobName: Option<string>): (r: string)
    ensures blobName.Some? && blobName.value != "" ==> r == blobName.value
    ensures (blobName.None? || blobName.value == "") ==> r == PathName(path) && '/' !in r && r != "."
  {
    if blobName.Some? && blobName.value != "" then blobName.value else PathName(path)
  }

  /**
   * Without a blob name, a file in a directory is uploaded under its own
   * name, and so is a path that ends in '/' or in a "." component.
   */
  lemma UploadNameIsLastComponent(dir: string, name: string)
    requires name != "" && name != "." && '/' !in name
    ensures UploadName(dir + "/" + name, None) == name
    ensures UploadName(dir + "/" + name + "/", None) == name
    ensures UploadName(dir + "/" + name + "/.", None) == name
  {
    PathNameOfComponent(dir, name);
    PathNameIgnoresTrailingSlash(dir + "/" + name);
    PathNameIgnoresDot(dir + "/" + name);
  }

  /** Line 114: where a blob is downloaded when no output path is given. */
  function DefaultDownloadPath(blobName: string): (r: string)
    ensures |r| > |"temp_downloads/"| ==> '/' !in r[|"temp_downloads/"|..]
  {
    "temp_downloads/" + PathName(blobName)
  }

  /** A blob named like a folder, "episodes/42/", is downloaded to "temp_downloads/42". */
  lemma FolderBlobDownloadPath()
    ensures DefaultDownloadPath("episodes/42/") == "temp_downloads/42"
  {
    PathNameOfComponent("episodes", "42");
    assert "episodes/42/" == "episodes" + "/" + "42" + "/";
    PathNameIgnoresTrailingSlash("episodes" + "/" + "42");
  }

  /** The blob names the episode processor builds for a podcast and an episode id segment. */
  function TranscriptBlobName(podcastSegment: string, episodeSegment: string): string
  {
    "transcripts/" + podcastSegment + "_" + episodeSegment + "_transcript.txt"
  }

  function AudioBlobName(podcastSegment: string, episodeSegment: string): string
  {
    "audio/" + podcastSegment + "_" + episodeSegment + ".mp3"
  }

  /** A transcript's blob name is stored as built and can never be deleted. */
  lemma TranscriptBlobKept(podcastSegment: string, episodeSegment: string)
    ensures var name := TranscriptBlobName(podcastSegment, episodeSegment);
      TextBlobName(name) == name && Protected(name)
  {
    var name := TranscriptBlobName(podcastSegment, episodeSegment);
    assert name == "transcripts/" + (podcastSegment + "_" + episodeSegment + "_transcript.txt");
    assert name[..|"transcripts/"|] == "transcripts/";
    assert name[|name| - 4..] == ".txt";
  }

  /**
   * An audio blob named from id segments of at most 8 characters without '_'
   * (the first 8 characters of a uuid) is not protected.
   */
  lemma {:induction false} AudioBlobDeletable(podcastSegment: string, episodeSegment: string)
    requires '_' !in podcastSegment && '_' !in episodeSegment && |episodeSegment| <= 8
    ensures !Protected(AudioBlobName(podcastSegment, episodeSegment))
  {
    var name := AudioBlobName(podcastSegment, episodeSegment);
    var u := 6 + |podcastSegment|;
    assert name == "audio/" + podcastSegment + "_" + episodeSegment + ".mp3";
    assert name[..6] == "audio/";
    assert "audio/"[1] != "transcripts/"[1];
    forall j | 0 <= j < |name| && j != u
      ensures name[j] != '_'
    {
      if j < 6 {
        assert name[j] == "audio/"[j];
      } else if j < u {
        assert name[j] == podcastSegment[j - 6];
      } else if j < u + 1 + |episodeSegment| {
        assert name[j] == episodeSegment[j - u - 1];
      } else {
        assert name[j] == ".mp3"[j - u - 1 - |episodeSegment|];
      }
    }
    var k := 1 + |episodeSegment|;
    assert name[u + k] == '.';
    forall i | 0 <= i <= |name|
      ensures !OccursAt(name, "_transcript", i)
    {
      if i + 11 <= |name| {
        if i == u {
          assert name[i..i + 11][k] == name[u + k];
        } else {
          assert name[i..i + 11][0] == name[i];
        }
      }
    }
  }

  // ---------------------------------------------------------------------
  // The operations object

  class BlobOperations {
    /** Whether the client's container handle is set (`ensure_initialized`). */
    var initialized: bool
    /** The container's blobs by name. */
    var blobs: map<string, Blob>
    /** The container's URL; a blob's URL is this followed by "/" and its name. */
    const containerUrl: string

    constructor(initialized: bool, containerUrl: string, blobs: map<string, Blob>)
      ensures this.initialized == initialized && this.containerUrl == containerUrl && this.blobs == blobs
    {
      this.initialized := initialized;
      this.containerUrl := containerUrl;
      this.blobs := blobs;
    }

    function Url(name: string): (r: string)
      reads this
      ensures |r| == |containerUrl| + 1 + |name| && r[|containerUrl| + 1..] == name
    {
      containerUrl + "/" + name
    }

    /** Lines 20-57: the file's bytes are stored under the chosen name, replacing any blob there. */
    method UploadFile(path: string, blobName: Option<string>, contentType: Option<string>, file: Option<string>)
        returns (r: Result<string>)
      modifies this
      ensures initialized == old(initialized)
      ensures !initialized ==> r == Err(NotInitialized) && blobs == old(blobs)
      ensures initialized && file.None? ==> r == Err(FileNotFound) && blobs == old(blobs)
      ensures initialized && file.Some? ==>
        var name := UploadName(path, blobName);
        r == Ok(Url(name)) && blobs == old(blobs)[name := Blob(file.value, contentType)]
    {
      if !initialized {
        return Err(NotInitialized);
      }
      var name := UploadName(path, blobName);
      if file.None? {
        return Err(FileNotFound);
      }
      blobs := blobs[name := Blob(file.value, contentType)];
      r := Ok(Url(name));
    }

    /** Lines 59-92: the text is stored as "text/plain" under its ".txt" name, replacing any blob there. */
    method UploadText(text: string, blobName: string) returns (r: Result<string>)
      modifies this
      ensures initialized == old(initialized)
      ensures !initialized ==> r == Err(NotInitialized) && blobs == old(blobs)
      ensures initialized ==>
        var name := TextBlobName(blobName);
        r == Ok(Url(name)) && blobs == old(blobs)[name := Blob(text, Some("text/plain"))]
    {
      if !initialized {
        return Err(NotInitialized);
      }
      var name := TextBlobName(blobName);
      blobs := blobs[name := Blob(text, Some("text/plain"))];
      r := Ok(Url(name));
    }

    /**
     * Lines 94-131: a stored blob is copied to the output path, by default
     * "temp_downloads/" and its `pathlib` name; a missing one gives None.
     */
    method DownloadBlob(blobName: string, outputPath: Option<string>) returns (r: Result<Option<Download>>)
      ensures !initialized ==> r == Err(NotInitialized)
      ensures initialized ==> r.Ok? && (r.value.Some? <==> blobName in blobs)
      ensures initialized && blobName in blobs ==>
        r.value.value.content == blobs[blobName].content &&
        r.value.value.path == (if outputPath.Some? && outputPath.value != "" then outputPath.value
                               else DefaultDownloadPath(blobName))
    {
      if !initialized {
        return Err(NotInitialized);
      }
      if blobName !in blobs {
        return Ok(None);
      }
      var path := if outputPath.Some? && outputPath.value != "" then outputPath.value
                  else DefaultDownloadPath(blobName);
      r := Ok(Some(Download(path, blobs[blobName].content)));
    }

    /** Lines 133-137. */
    method GetBlobUrl(blobName: string) returns (r: Result<string>)
      ensures !initialized ==> r == Err(NotInitialized)
      ensures initialized ==> r == Ok(Url(blobName))
    {
      if !initialized {
        return Err(NotInitialized);
      }
      r := Ok(Url(blobName));
    }

    /** Lines 139-150: whether a blob of that name is stored. */
    method BlobExists(blobName: string) returns (r: Result<bool>)
      ensures !initialized ==> r == Err(NotInitialized)
      ensures initialized ==> r == Ok(blobName in blobs)
    {
      if !initialized {
        return Err(NotInitialized);
      }
      r := Ok(blobName in blobs);
    }

    /** Lines 152-170: transcripts are never removed; any other stored blob is. */
    method DeleteBlob(blobName: string) returns (r: Result<bool>)
      modifies this
      ensures initialized == old(initialized)
      ensures !initialized ==> r == Err(NotInitialized) && blobs == old(blobs)
      ensures initialized ==> r == Ok(!Protected(blobName) && blobName in old(blobs))
      ensures initialized && r == Ok(true) ==> blobs == old(blobs) - {blobName}
      ensures initialized && r == Ok(false) ==> blobs == old(blobs)
    {
      if !initialized {
        return Err(NotInitialized);
      }
      if Protected(blobName) {
        return Ok(false);
      }
      if blobName !in blobs {
        return Ok(false);
      }
      blobs := blobs - {blobName};
      r := Ok(true);
    }
  }

  /** Uploading a transcript's text and then deleting its blob leaves the transcript stored. */
  method TranscriptSurvivesDelete(store: BlobOperations, podcastSegment: string, episodeSegment: string, text: string)
      returns (deleted: Result<bool>)
    requires store.initialized
    modifies store
    ensures var name := TranscriptBlobName(podcastSegment, episodeSegment);
      deleted == Ok(false) && name in store.blobs && store.blobs[name] == Blob(text, Some("text/plain"))
  {
    var name := TranscriptBlobName(podcastSegment, episodeSegment);
    TranscriptBlobKept(podcastSegment, episodeSegment);
    var _ := store.UploadText(text, name);
    deleted := store.DeleteBlob(name);
  }
}
