/**
 * The upload panel's validator and its file-selection handler: extension
 * check against the supported formats, then a 50 MiB ceiling, then the awaited
 * load with the panel's `isLoading`, `error` and `uploadedFile` state around it.
 */
module ModelUpload {
  import opened Common
  import opened FileExtension
  import ThreeScene

  /** `SUPPORTED_FORMATS`, in its key order: extension and label. */
  const SupportedFormats: seq<(string, string)> :=
    [(".glb", "GLB (Recommended)"), (".gltf", "GLTF"), (".obj", "OBJ"), (".fbx", "FBX"), (".stl", "STL")]

  /** `Object.keys(SUPPORTED_FORMATS)`. */
  function SupportedExtensions(): (keys: seq<string>)
    ensures keys == [".glb", ".gltf", ".obj", ".fbx", ".stl"]
  {
    seq(|SupportedFormats|, i requires 0 <= i < |SupportedFormats| => SupportedFormats[i].0)
  }

  /** 50 * 1024 * 1024 bytes. */
  const MaxFileSize: nat := 50 * 1024 * 1024

  datatype ValidationError = UnsupportedFormat | FileTooLarge

  /** The verdict of `validateFile`: None when the file is accepted. */
  function Validate(name: string, size: nat): (r: Option<ValidationError>)
    ensures r == None <==> Extension(name) in SupportedExtensions() && size <= MaxFileSize
    ensures Extension(name) !in SupportedExtensions() ==> r == Some(UnsupportedFormat)
    ensures Extension(name) in SupportedExtensions() && size > MaxFileSize ==> r == Some(FileTooLarge)
  {
    if Extension(name) !in SupportedExtensions() then Some(UnsupportedFormat)
    else if size > MaxFileSize then Some(FileTooLarge)
    else None
  }

  const LoadFailedMessage: string := "Failed to load model. Please try another file."

  /** The first two characters of the load-failure text. */
  lemma LoadFailedMessageOpening()
    ensures LoadFailedMessage[0] == 'F' && LoadFailedMessage[1] == 'a'
  {
    assert LoadFailedMessage == "Failed to load model. " + "Please try another file.";
  }

  /** The text `validateFile` shows for each rejection; neither reads like a failed load. */
  function Message(e: ValidationError): (m: string)
    ensures m != LoadFailedMessage
  {
    LoadFailedMessageOpening();
    match e
    case UnsupportedFormat =>
      var text := "Unsupported format. Please use: " + Join(SupportedExtensions(), ", ");
      assert text[0] == 'U';
      text
    case FileTooLarge =>
      var text := "File too large. Maximum size is 50MB.";
      assert text[1] == 'i';
      text
  }

  /** The format message lists the keys in their declared order. */
  lemma UnsupportedFormatMessage()
    ensures Message(UnsupportedFormat) == "Unsupported format. Please use: .glb, .gltf, .obj, .fbx, .stl"
  {
    var keys := SupportedExtensions();
    assert keys[1..][1..][1..][1..] == [".stl"];
    assert Join(keys, ", ") == ".glb, .gltf, .obj, .fbx, .stl";
  }

  /** The validator accepts exactly the extensions the scene manager hands to a loader. */
  lemma AcceptedSetMatchesDispatch(ext: string)
    ensures ext in SupportedExtensions() <==> ThreeScene.LoaderFor(ext).Some?
  {
  }

  /** Every file the validator accepts reaches a loader, whatever its size below the ceiling. */
  lemma AcceptedFileIsDispatched(name: string, size: nat)
    requires Validate(name, size) == None
    ensures ThreeScene.Dispatch(name).Dispatched?
  {
    AcceptedSetMatchesDispatch(Extension(name));
  }

  /** Exactly 50 MiB passes; one byte more fails with the size error, whatever the stem. */
  lemma SizeCeilingIsInclusive(stem: string)
    ensures Validate(stem + ".glb", MaxFileSize) == None
    ensures Validate(stem + ".glb", MaxFileSize + 1) == Some(FileTooLarge)
  {
    assert stem + ".glb" == stem + "." + "glb";
    ExtensionIgnoresStem(stem, "glb");
    LowerKeepsLowercase("glb");
    assert Extension(stem + ".glb") == ".glb";
  }

  /** The format check comes first: an oversized file with a bad extension reports the format. */
  lemma FormatErrorWinsOverSize(stem: string)
    ensures Validate(stem + ".blend", MaxFileSize + 1) == Some(UnsupportedFormat)
  {
    assert stem + ".blend" == stem + "." + "blend";
    ExtensionIgnoresStem(stem, "blend");
    LowerKeepsLowercase("blend");
    assert Extension(stem + ".blend") == ".blend";
  }

  /** The extension is lowercased, so an upper-case one is accepted. */
  lemma UpperCaseExtensionAccepted(stem: string)
    ensures Validate(stem + ".GLB", 1) == None
  {
    assert stem + ".GLB" == stem + "." + "GLB";
    ExtensionIgnoresStem(stem, "GLB");
    assert Lower("GLB") == "glb";
    assert Extension(stem + ".GLB") == ".glb";
  }

  /** A name without a dot is its own extension: a file named just "glb" passes as a GLB file. */
  lemma DotlessNameIsItsOwnExtension()
    ensures Extension("glb") == ".glb"
    ensures Validate("glb", 1) == None
  {
    ExtensionOfDotlessName("glb");
    LowerKeepsLowercase("glb");
  }

  /** The panel state the validator and handler update. */
  class UploadPanel {
    var uploadedFile: Option<string>
    var error: Option<string>
    var isLoading: bool

    constructor ()
      ensures uploadedFile == None && error == None && !isLoading
    {
      uploadedFile := None;
      error := None;
      isLoading := false;
    }

    /** The effect run when the modal closes: all three pieces of state cleared. */
    method Close()
      modifies this
      ensures uploadedFile == None && error == None && !isLoading
    {
      uploadedFile := None;
      error := None;
      isLoading := false;
    }

    /** `validateFile`: sets the error on a rejection and clears it on success. */
    method ValidateFile(name: string, size: nat) returns (ok: bool)
      modifies this`error
      ensures ok <==> Validate(name, size) == None
      ensures ok ==> error == None
      ensures !ok ==> error == Some(Message(Validate(name, size).value))
    {
      var extension := Extension(name);
      if extension !in SupportedExtensions() {
        error := Some("Unsupported format. Please use: " + Join(SupportedExtensions(), ", "));
        return false;
      }
      if size > MaxFileSize {
        error := Some("File too large. Maximum size is 50MB.");
        return false;
      }
      error := None;
      return true;
    }

    /**
     * `handleFileSelect` up to the `await`: a valid file starts the load with
     * the spinner on and the error cleared. `loadCalled` says whether
     * `onModelLoad` was called at all.
     */
    method HandleFileSelect(name: string, size: nat) returns (loadCalled: bool)
      modifies this
      ensures loadCalled <==> Validate(name, size) == None
      ensures !loadCalled ==>
        error == Some(Message(Validate(name, size).value))
        && uploadedFile == old(uploadedFile) && isLoading == old(isLoading)
      ensures loadCalled ==> isLoading && error == None && uploadedFile == old(uploadedFile)
    {
      var valid := ValidateFile(name, size);
      loadCalled := valid;
      if valid {
        isLoading := true;
        error := None;
      }
    }

    /**
     * `handleFileSelect` after the `await`: how the load settled decides between
     * recording the file name and reporting the failure; the spinner stops either way.
     * Nothing checks whether the modal was closed in between.
     */
    method SettleLoad(name: string, loadSucceeds: bool)
      modifies this
      ensures !isLoading
      ensures loadSucceeds ==> uploadedFile == Some(name) && error == old(error)
      ensures !loadSucceeds ==> uploadedFile == old(uploadedFile) && error == Some(LoadFailedMessage)
    {
      if loadSucceeds {
        uploadedFile := Some(name);
      } else {
        error := Some(LoadFailedMessage);
      }
      isLoading := false;
    }
  }

  /** A selection whose load settles before anything else happens to the panel. */
  method SelectAndSettle(p: UploadPanel, name: string, size: nat, loadSucceeds: bool) returns (loadCalled: bool)
    modifies p
    ensures loadCalled <==> Validate(name, size) == None
    ensures !loadCalled ==>
      p.error == Some(Message(Validate(name, size).value))
      && p.uploadedFile == old(p.uploadedFile) && p.isLoading == old(p.isLoading)
    ensures loadCalled ==> !p.isLoading
    ensures loadCalled && loadSucceeds ==> p.uploadedFile == Some(name) && p.error == None
    ensures loadCalled && !loadSucceeds ==> p.uploadedFile == old(p.uploadedFile) && p.error == Some(LoadFailedMessage)
  {
    loadCalled := p.HandleFileSelect(name, size);
    if loadCalled {
      p.SettleLoad(name, loadSucceeds);
    }
  }

  /**
   * The modal closes while a load is in flight: the close effect clears the panel,
   * and the load settling afterwards still writes into it.
   */
  method CloseWhileLoading(p: UploadPanel, name: string, size: nat, loadSucceeds: bool)
    requires Validate(name, size) == None
    modifies p
    ensures loadSucceeds ==> p.uploadedFile == Some(name) && p.error == None
    ensures !loadSucceeds ==> p.uploadedFile == None && p.error == Some(LoadFailedMessage)
    ensures !p.isLoading
  {
    var loadCalled := p.HandleFileSelect(name, size);
    assert p.isLoading;
    p.Close();
    p.SettleLoad(name, loadSucceeds);
  }
}
