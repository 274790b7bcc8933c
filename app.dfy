/** The upload form of src/App.tsx: choosing a file and the checks made before it is submitted. */
module UploadForm {
  import opened Wrappers

  /** A chosen file, by name and size in bytes. */
  datatype File = File(name: string, size: nat)

  /** The upload limit, `1048576 * 4.5` bytes. */
  const MaxFileSize: nat := 1048576 * 9 / 2

  /** One entry of the multipart form that is sent. */
  datatype FormEntry = FormEntry(key: string, file: File)

  /** What a submit does: raise an error to the error boundary, or call `mutate` once with the form. */
  datatype UploadOutcome = ShowBoundary(message: string) | Mutate(form: seq<FormEntry>)

  /** onUploadTranscript: reject a missing file, then an oversized one, else send the file as 'audio'. */
  function OnUploadTranscript(file: Option<File>): (r: UploadOutcome)
    ensures file.None? ==> r == ShowBoundary("No file selected")
    ensures file.Some? && file.value.size > MaxFileSize ==> r == ShowBoundary("File size exceeds 4.5 MB")
    ensures r.Mutate? <==> file.Some? && file.value.size <= MaxFileSize
    ensures r.Mutate? ==> r.form == [FormEntry("audio", file.value)]
  {
    if file.None? then ShowBoundary("No file selected")
    else if file.value.size > MaxFileSize then ShowBoundary("File size exceeds 4.5 MB")
    else Mutate([FormEntry("audio", file.value)])
  }

  /** The limit is 4.5 MiB, 4718592 bytes, and a file of exactly that size is sent. */
  lemma SizeLimitIsInclusive(name: string)
    ensures MaxFileSize == 4718592 && MaxFileSize as real == 1048576.0 * 4.5
    ensures OnUploadTranscript(Some(File(name, 4718592))) == Mutate([FormEntry("audio", File(name, 4718592))])
    ensures OnUploadTranscript(Some(File(name, 4718593))) == ShowBoundary("File size exceeds 4.5 MB")
  {
  }

  /** The state of the App component that the file input changes. */
  class App {
    var file: Option<File>
    var audioUrl: Option<string>
    var fileError: bool

    constructor ()
      ensures file == None && audioUrl == None && !fileError
    {
      file, audioUrl, fileError := None, None, false;
    }

    /**
     * handleFileChange. `files` is the input's file list (`null` as None);
     * `objectUrl` is the URL `URL.createObjectURL` makes for its first file.
     * With an empty list the first file is `undefined` and creating its URL
     * fails, so `audioUrl` keeps its value.
     */
    method HandleFileChange(files: Option<seq<File>>, objectUrl: string)
      modifies this
      ensures files.None? ==> file == old(file) && audioUrl == old(audioUrl) && fileError == old(fileError)
      ensures files.Some? ==> !fileError
      ensures files.Some? && |files.value| > 0 ==> file == Some(files.value[0]) && audioUrl == Some(objectUrl)
      ensures files.Some? && |files.value| == 0 ==> file == None && audioUrl == old(audioUrl)
    {
      if files.Some? {
        fileError := false;
        if |files.value| > 0 {
          file := Some(files.value[0]);
          audioUrl := Some(objectUrl);
        } else {
          file := None;
        }
      }
    }
  }
}
