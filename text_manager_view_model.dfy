/** The first tab's view model: the text and file-name inputs, the list of
    saved files, the open file, and the alert and progress flags that the
    screen observes. The document store is a `TextFileManager`, missing when
    the documents directory could not be found. */
module TextManagerScreen {
  import opened Wrappers
  import opened TextFiles

  /** Every observed field of the view model at one moment. */
  datatype ViewState = ViewState(
    inputText: string,
    fileName: string,
    savedFiles: seq<string>,
    selectedFile: Option<string>,
    fileContent: string,
    showAlert: bool,
    alertMessage: string,
    showFileViewer: bool,
    isLoading: bool,
    didSaveSuccessfully: bool)

  const InitFailedMessage := "Failed to initialize file manager. The app may not function properly."
  const NoManagerMessage := "File manager is not available"
  const MissingInputMessage := "Please provide both filename and content"
  const DeletedMessage := "File deleted successfully!"

  function SavedMessage(fileName: string): (m: string)
    ensures Text.Contains(m, fileName + ".txt")
  {
    var m := "Text appended to '" + fileName + ".txt' successfully!";
    assert Text.OccursAt(m, fileName + ".txt", 18) by {
      assert m[18..18 + |fileName + ".txt"|] == fileName + ".txt";
    }
    Text.ContainsIffOccurs(m, fileName + ".txt");
    m
  }

  class TextManagerViewModel {
    var inputText: string
    var fileName: string
    var savedFiles: seq<string>
    var selectedFile: Option<string>
    var fileContent: string
    var showAlert: bool
    var alertMessage: string
    var showFileViewer: bool
    var isLoading: bool
    var didSaveSuccessfully: bool
    const textManager: TextFileManager?

    ghost function State(): ViewState
      reads this
    {
      ViewState(inputText, fileName, savedFiles, selectedFile, fileContent,
                showAlert, alertMessage, showFileViewer, isLoading, didSaveSuccessfully)
    }

    /** `init()`: `manager` is what `TextFileManager.create()` gave. Without
        one the start-up alert is raised; with one the file list is loaded
        (`listingError` is the outcome of a failed listing). */
    constructor(manager: TextFileManager?, listingError: Option<string>)
      ensures textManager == manager
      ensures manager == null ==>
        State() == ViewState("", "", [], None, "", true, InitFailedMessage, false, false, false)
      ensures manager != null && listingError.None? ==>
        && State() == ViewState("", "", savedFiles, None, "", false, "", false, false, false)
        && ListsTextEntries(savedFiles, manager.documents)
      ensures manager != null && listingError.Some? ==>
        State() == ViewState("", "", [], None, "", true,
                             "Error loading files: " + ErrorDescription(DirectoryListingError(listingError.value)),
                             false, false, false)
    {
      inputText := "";
      fileName := "";
      savedFiles := [];
      selectedFile := None;
      fileContent := "";
      showAlert := false;
      alertMessage := "";
      showFileViewer := false;
      isLoading := false;
      didSaveSuccessfully := false;
      textManager := manager;
      new;
      if textManager == null {
        alertMessage := InitFailedMessage;
        showAlert := true;
      } else {
        LoadSavedFiles(listingError);
      }
    }

    /** `showError` and `showSuccess`, which do the same thing. */
    method ShowAlert(message: string)
      modifies this
      ensures State() == old(State()).(alertMessage := message, showAlert := true)
    {
      alertMessage := message;
      showAlert := true;
    }

    /** `loadSavedFiles()`: nothing without a manager; otherwise the sorted
        `.txt` listing, or an empty list and an alert when listing fails. */
    method LoadSavedFiles(listingError: Option<string>)
      modifies this
      ensures textManager == null ==> State() == old(State())
      ensures textManager != null && listingError.None? ==>
        && State() == old(State()).(savedFiles := savedFiles)
        && ListsTextEntries(savedFiles, textManager.documents)
      ensures textManager != null && listingError.Some? ==>
        State() == old(State()).(savedFiles := [], showAlert := true,
          alertMessage := "Error loading files: " + ErrorDescription(DirectoryListingError(listingError.value)))
    {
      if textManager == null {
        return;
      }
      var result := textManager.GetSavedFiles(listingError);
      match result {
        case Success(files) =>
          savedFiles := files;
        case Failure(error) =>
          ShowAlert("Error loading files: " + ErrorDescription(error));
          savedFiles := [];
      }
    }

    /** `saveTextFile()`: refused with an alert without a manager or with an
        empty name or text; otherwise the text is appended to `<name>.txt`,
        and `appendOutcome` is what the append did (see
        `TextFileManager.AppendTextToFile`). Success clears both inputs,
        reloads the list, which then holds `<name>.txt` unless listing
        fails, and raises the saved flag; failure keeps the inputs and
        writes nothing. Either way loading ends. */
    method SaveTextFile(appendOutcome: Result<string, TextFileManagerError>, listingError: Option<string>)
      modifies this, textManager
      ensures textManager == null ==> State() == old(State()).(alertMessage := NoManagerMessage, showAlert := true)
      ensures textManager != null && (old(fileName) == [] || old(inputText) == []) ==>
        && textManager.documents == old(textManager.documents)
        && State() == old(State()).(alertMessage := MissingInputMessage, showAlert := true)
      ensures textManager != null && old(fileName) != [] && old(inputText) != [] && appendOutcome.Failure? ==>
        && textManager.documents == old(textManager.documents)
        && State() == old(State()).(showAlert := true, isLoading := false,
             alertMessage := "Error saving file: " + ErrorDescription(appendOutcome.error))
      ensures textManager != null && old(fileName) != [] && old(inputText) != [] && appendOutcome.Success? ==>
        && textManager.documents == old(textManager.documents)[old(fileName) + ".txt" := appendOutcome.value]
        && (listingError.None? ==>
              && State() == old(State()).(inputText := "", fileName := "", savedFiles := savedFiles,
                   showAlert := true, alertMessage := SavedMessage(old(fileName)),
                   isLoading := false, didSaveSuccessfully := true)
              && ListsTextEntries(savedFiles, textManager.documents)
              && old(fileName) + ".txt" in savedFiles)
        && (listingError.Some? ==>
              State() == old(State()).(inputText := "", fileName := "", savedFiles := [], showAlert := true,
                alertMessage := "Error loading files: " + ErrorDescription(DirectoryListingError(listingError.value)),
                isLoading := false, didSaveSuccessfully := true))
    {
      if textManager == null {
        ShowAlert(NoManagerMessage);
        return;
      }
      if fileName == [] || inputText == [] {
        ShowAlert(MissingInputMessage);
        return;
      }
      isLoading := true;
      var result := textManager.AppendTextToFile(inputText, fileName + ".txt", appendOutcome);
      match result {
        case Success(_) =>
          ghost var name := fileName;
          ShowAlert(SavedMessage(fileName));
          ClearInputFields();
          LoadSavedFiles(listingError);
          didSaveSuccessfully := true;
          Text.AppendedHasSuffix(name, ".txt");
          assert name + ".txt" in TextEntries(textManager.documents);
        case Failure(error) =>
          ShowAlert("Error saving file: " + ErrorDescription(error));
      }
      isLoading := false;
    }

    /** `loadFileContent(fileName:)`: on success the content is shown in the
        viewer with `fileName` selected; on failure an alert. Loading ends
        either way. */
    method LoadFileContent(fileName: string, readError: Option<string>)
      modifies this
      ensures textManager == null ==> State() == old(State()).(alertMessage := NoManagerMessage, showAlert := true)
      ensures textManager != null ==>
        var result := textManager.LoadTextFile(fileName, readError);
        match result
        case Success(content) =>
          State() == old(State()).(fileContent := content, selectedFile := Some(fileName),
                                   showFileViewer := true, isLoading := false)
        case Failure(error) =>
          State() == old(State()).(alertMessage := "Error loading file: " + ErrorDescription(error),
                                   showAlert := true, isLoading := false)
    {
      if textManager == null {
        ShowAlert(NoManagerMessage);
        return;
      }
      ghost var before := State();
      isLoading := true;
      var result := textManager.LoadTextFile(fileName, readError);
      match result {
        case Success(content) =>
          fileContent := content;
          selectedFile := Some(fileName);
          showFileViewer := true;
          isLoading := false;
          assert State() == before.(fileContent := content, selectedFile := Some(fileName),
                                    showFileViewer := true, isLoading := false);
        case Failure(error) =>
          ShowAlert("Error loading file: " + ErrorDescription(error));
          isLoading := false;
          assert State() == before.(alertMessage := "Error loading file: " + ErrorDescription(error),
                                    showAlert := true, isLoading := false);
      }
    }

    /** `deleteFile(fileName:)`: on success the list is reloaded and the
        viewer is closed only when it shows that very file; on failure an
        alert and nothing else. */
    method DeleteFile(fileName: string, deleteError: Option<string>, listingError: Option<string>)
      modifies this, textManager
      ensures textManager == null ==> State() == old(State()).(alertMessage := NoManagerMessage, showAlert := true)
      ensures textManager != null && !IsValidFileName(fileName) ==>
        && textManager.documents == old(textManager.documents)
        && State() == old(State()).(showAlert := true, alertMessage := "Error deleting file: " + ErrorDescription(InvalidFileName))
      ensures textManager != null && IsValidFileName(fileName) && fileName !in old(textManager.documents) ==>
        && textManager.documents == old(textManager.documents)
        && State() == old(State()).(showAlert := true, alertMessage := "Error deleting file: " + ErrorDescription(FileNotFound))
      ensures textManager != null && IsValidFileName(fileName) && fileName in old(textManager.documents) && deleteError.Some? ==>
        && textManager.documents == old(textManager.documents)
        && State() == old(State()).(showAlert := true,
             alertMessage := "Error deleting file: " + ErrorDescription(DeleteError(deleteError.value)))
      ensures textManager != null && IsValidFileName(fileName) && fileName in old(textManager.documents) && deleteError.None? ==>
        && textManager.documents == old(textManager.documents) - {fileName}
        && showAlert
        && (old(selectedFile) == Some(fileName) ==> selectedFile == None && fileContent == "" && !showFileViewer)
        && (old(selectedFile) != Some(fileName) ==>
              selectedFile == old(selectedFile) && fileContent == old(fileContent) && showFileViewer == old(showFileViewer))
        && inputText == old(inputText) && this.fileName == old(this.fileName)
        && isLoading == old(isLoading) && didSaveSuccessfully == old(didSaveSuccessfully)
        && (listingError.None? ==> alertMessage == DeletedMessage && ListsTextEntries(savedFiles, textManager.documents))
        && (listingError.Some? ==>
              savedFiles == [] && alertMessage == "Error loading files: " + ErrorDescription(DirectoryListingError(listingError.value)))
    {
      if textManager == null {
        ShowAlert(NoManagerMessage);
        return;
      }
      var result := textManager.DeleteTextFile(fileName, deleteError);
      match result {
        case Success(_) =>
          ShowAlert(DeletedMessage);
          LoadSavedFiles(listingError);
          if selectedFile == Some(fileName) {
            ClearFileContent();
          }
        case Failure(error) =>
          ShowAlert("Error deleting file: " + ErrorDescription(error));
      }
    }

    /** `fileExists(fileName:)`: false without a manager. */
    function FileExists(fileName: string): (exists_: bool)
      reads this, textManager
      ensures exists_ <==> textManager != null && IsValidFileName(fileName) && fileName in textManager.documents
    {
      textManager != null && textManager.FileExists(fileName)
    }

    /** `clearFileContent()`: closes the viewer. */
    method ClearFileContent()
      modifies this
      ensures State() == old(State()).(fileContent := "", selectedFile := None, showFileViewer := false)
    {
      fileContent := "";
      selectedFile := None;
      showFileViewer := false;
    }

    method ClearInputFields()
      modifies this
      ensures State() == old(State()).(inputText := "", fileName := "")
    {
      inputText := "";
      fileName := "";
    }

    /** `canSaveFile`: both inputs filled in and nothing in progress, which
        implies that a save with a manager gets past its guards. */
    function CanSaveFile(): (can: bool)
      reads this
      ensures can <==> fileName != [] && inputText != [] && !isLoading
    {
      fileName != [] && inputText != [] && !isLoading
    }

    /** `isFileManagerAvailable`. */
    function IsFileManagerAvailable(): (available: bool)
      reads this
      ensures available <==> textManager != null
    {
      textManager != null
    }
  }
}
