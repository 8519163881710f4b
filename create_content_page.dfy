/** `CreateContentPage`: the content schema, the comma-separated tags, the
    dropped-file size check and the three-step wizard with its two submit
    handlers. */
module CreateContentPage {
  import opened Js
  import opened AlertContext
  import opened WalletContext
  import opened Guard
  import opened Validation
  import opened TokenizationForm

  /** What the content form holds. */
  datatype ContentFormData = ContentFormData(title: string, description: string, tags: seq<string>, isSubscriberOnly: bool)

  /** `z.string().min(lo, minMessage).max(hi, maxMessage)`. */
  function LengthIssue(s: string, lo: nat, hi: nat, minMessage: string, maxMessage: string): (r: Option<string>)
    requires lo <= hi
    ensures r.None? <==> lo <= |s| <= hi
    ensures |s| < lo ==> r == Some(minMessage)
    ensures |s| > hi ==> r == Some(maxMessage)
  {
    if |s| < lo then Some(minMessage) else if |s| > hi then Some(maxMessage) else None
  }

  const NoTag := "Add at least one tag"

  /** Every issue `contentSchema` finds, in field order. */
  function ContentIssues(d: ContentFormData): seq<Issue>
  {
    IssueOf("title", LengthIssue(d.title, 3, 100,
      "Title must be at least 3 characters", "Title cannot exceed 100 characters"))
    + IssueOf("description", LengthIssue(d.description, 10, 1000,
      "Description must be at least 10 characters", "Description cannot exceed 1000 characters"))
    + IssueOf("tags", if |d.tags| < 1 then Some(NoTag) else None)
  }

  predicate ContentAccepts(d: ContentFormData)
  {
    ContentIssues(d) == []
  }

  /** The schema accepts exactly a title of 3 to 100 characters, a description
      of 10 to 1000 and at least one tag. */
  lemma ContentAcceptsIff(d: ContentFormData)
    ensures ContentAccepts(d) <==> 3 <= |d.title| <= 100 && 10 <= |d.description| <= 1000 && |d.tags| >= 1
  {
  }

  /** The form starts with no tags, so until the tag input is used the schema
      reports the missing tag, whatever the title and description. */
  lemma DefaultTagsRejected(title: string, description: string)
    ensures !ContentAccepts(ContentFormData(title, description, [], false))
    ensures Issue("tags", NoTag) in ContentIssues(ContentFormData(title, description, [], false))
  {
    var d := ContentFormData(title, description, [], false);
    assert ContentIssues(d)[|ContentIssues(d)| - 1] == Issue("tags", NoTag);
  }

  // ---------------------------------------------------------------------------
  // Tags

  /** `value.split(',').map(tag => tag.trim())`. */
  function Tags(input: string): (r: seq<string>)
    ensures |r| == |Split(input, ',')|
    ensures forall i :: 0 <= i < |r| ==> r[i] == Trim(Split(input, ',')[i])
  {
    var parts := Split(input, ',');
    seq(|parts|, i requires 0 <= i < |parts| => Trim(parts[i]))
  }

  /** There is one tag more than there are commas, no tag holds a comma, and
      every tag is already trimmed. */
  lemma TagsShape(input: string)
    ensures |Tags(input)| == CountChar(input, ',') + 1
    ensures forall i :: 0 <= i < |Tags(input)| ==> ',' !in Tags(input)[i] && Trim(Tags(input)[i]) == Tags(input)[i]
  {
    SplitCount(input, ',');
    SplitPiecesFree(input, ',');
    var parts := Split(input, ',');
    forall i | 0 <= i < |parts| ensures ',' !in Trim(parts[i]) && Trim(Trim(parts[i])) == Trim(parts[i]) {
      TrimmedPiece(parts[i]);
    }
  }

  /** Trimming a piece without a comma gives a trimmed text without a comma. */
  lemma TrimmedPiece(piece: string)
    requires ',' !in piece
    ensures ',' !in Trim(piece) && Trim(Trim(piece)) == Trim(piece)
  {
    var t := Trim(piece);
    var k :| SliceWithin(piece, t, k);
    forall j | 0 <= j < |t| ensures t[j] != ',' {
      assert t[j] == piece[k + j];
    }
    TrimIdempotent(piece);
  }

  /** Once the tag input has been typed in, the tag rule holds whatever was
      typed: even a cleared input gives one tag. */
  lemma TypedTagsPassTagRule(title: string, description: string, input: string, b: bool)
    ensures ContentAccepts(ContentFormData(title, description, Tags(input), b)) <==>
      3 <= |title| <= 100 && 10 <= |description| <= 1000
  {
    ContentAcceptsIff(ContentFormData(title, description, Tags(input), b));
  }

  /** A cleared tag input gives the single tag ''. */
  lemma ClearedTagInput()
    ensures Tags("") == [""]
  {
    assert Trim("") == "";
  }

  // ---------------------------------------------------------------------------
  // The dropped file

  /** `file.size > MAX_FILE_SIZE * 1024 * 1024`. */
  predicate DropTooLarge(f: File)
  {
    f.size > MaxFileSize * 1024 * 1024
  }

  /** The page's byte check rejects exactly what `validateFileSize` with the
      same limit rejects. */
  lemma DropCheckAgreesWithValidator(f: File)
    ensures DropTooLarge(f) <==> !ValidateFileSize(f, MaxFileSize as real)
  {
    FileSizeBoundary(f, MaxFileSize);
  }

  const UploadMissing := "Please upload a file"
  const Created := "Content created and tokenized successfully!"
  const CreateFailed := "Failed to create content"
  const Tokenized := "Content tokenized successfully! Your content is now live."
  const TokenizeFailed := "Failed to tokenize content. Please try again."

  /** What the wizard has gathered: its step, the chosen type, the file with
      its preview, and the article text. */
  datatype Draft = Draft(step: int, contentType: Option<string>, file: Option<File>, previewUrl: Option<string>, richText: string)

  /** The wizard's first screen with nothing gathered. */
  const EmptyDraft := Draft(1, None, None, None, "")

  /** The wizard: 1 choose a type, 2 upload and describe, 3 tokenize. */
  class Wizard {
    const wallet: Wallet
    var step: int
    var contentType: Option<string>
    var file: Option<File>
    var previewUrl: Option<string>
    var richText: string
    var isProcessing: bool

    function Fields(): Draft
      reads this
    {
      Draft(step, contentType, file, previewUrl, richText)
    }

    ghost predicate Valid()
      reads this, wallet, wallet.alerts
    {
      wallet.Valid() && 1 <= step <= 3
    }

    constructor (wallet: Wallet)
      requires wallet.Valid()
      ensures Valid()
      ensures this.wallet == wallet
      ensures Fields() == EmptyDraft && !isProcessing
    {
      this.wallet := wallet;
      step := 1;
      contentType := None;
      file := None;
      previewUrl := None;
      richText := "";
      isProcessing := false;
    }

    /** A content type button of step 1. */
    method ChooseType(t: string)
      requires Valid() && step == 1
      modifies this
      ensures Valid()
      ensures Fields() == old(Fields()).(contentType := Some(t), step := 2)
      ensures isProcessing == old(isProcessing)
    {
      contentType := Some(t);
      step := 2;
    }

    /** The back button of step 2. */
    method BackToType()
      requires Valid() && step == 2
      modifies this
      ensures Valid()
      ensures Fields() == old(Fields()).(step := 1)
      ensures isProcessing == old(isProcessing)
    {
      step := 1;
    }

    /** `onDrop(acceptedFiles)`, with `url` the object URL of the first file.
        No file: nothing happens. A file over the limit: one error and nothing
        else. Otherwise it becomes the file and its URL the preview. */
    method OnDrop(acceptedFiles: seq<File>, id: string, url: string)
      requires Valid()
      modifies this, wallet.alerts
      ensures Valid()
      ensures acceptedFiles == [] ==>
        Fields() == old(Fields()) && wallet.alerts.alerts == old(wallet.alerts.alerts) && wallet.alerts.timers == old(wallet.alerts.timers)
      ensures acceptedFiles != [] && DropTooLarge(acceptedFiles[0]) ==>
        && Fields() == old(Fields())
        && wallet.alerts.alerts == old(wallet.alerts.alerts) + [Alert(id, Error, TooLargeMessage())]
        && wallet.alerts.timers == old(wallet.alerts.timers) + multiset{id}
      ensures acceptedFiles != [] && !DropTooLarge(acceptedFiles[0]) ==>
        && Fields() == old(Fields()).(file := Some(acceptedFiles[0]), previewUrl := Some(url))
        && wallet.alerts.alerts == old(wallet.alerts.alerts) && wallet.alerts.timers == old(wallet.alerts.timers)
      ensures isProcessing == old(isProcessing)
    {
      if acceptedFiles != [] {
        var f := acceptedFiles[0];
        if f.size > MaxFileSize * 1024 * 1024 {
          wallet.alerts.ShowAlert(id, Error, TooLargeMessage());
          return;
        }
        file := Some(f);
        previewUrl := Some(url);
      }
    }

    /** The remove button on the preview. */
    method RemoveFile()
      requires Valid()
      modifies this
      ensures Valid()
      ensures Fields() == old(Fields()).(file := None, previewUrl := None)
      ensures isProcessing == old(isProcessing)
    {
      file := None;
      previewUrl := None;
    }

    /** The article editor's change handler. */
    method SetRichText(text: string)
      requires Valid()
      modifies this
      ensures Valid()
      ensures Fields() == old(Fields()).(richText := text)
      ensures isProcessing == old(isProcessing)
    {
      richText := text;
    }

    /** 'Continue to Tokenization': step 3 exactly when there is a file or the
        content is an article; otherwise one error and step 2 stays. */
    method ContinueToTokenization(id: string) returns (advanced: bool)
      requires Valid() && step == 2
      modifies this, wallet.alerts
      ensures Valid()
      ensures advanced <==> file.Some? || contentType == Some("text")
      ensures Fields() == old(Fields()).(step := if advanced then 3 else 2)
      ensures advanced ==> wallet.alerts.alerts == old(wallet.alerts.alerts) && wallet.alerts.timers == old(wallet.alerts.timers)
      ensures !advanced ==>
        && wallet.alerts.alerts == old(wallet.alerts.alerts) + [Alert(id, Error, UploadMissing)]
        && wallet.alerts.timers == old(wallet.alerts.timers) + multiset{id}
      ensures isProcessing == old(isProcessing)
    {
      if file.None? && contentType != Some("text") {
        wallet.alerts.ShowAlert(id, Error, UploadMissing);
        return false;
      }
      step := 3;
      return true;
    }

    /** The back button of step 3. */
    method BackToUpload()
      requires Valid() && step == 3
      modifies this
      ensures Valid()
      ensures Fields() == old(Fields()).(step := 2)
      ensures isProcessing == old(isProcessing)
    {
      step := 2;
    }

    /** The reset after a created item: back to the first screen. */
    method Reset()
      requires Valid()
      modifies this
      ensures Valid()
      ensures Fields() == EmptyDraft && isProcessing == old(isProcessing)
    {
      step := 1;
      contentType := None;
      file := None;
      previewUrl := None;
      richText := "";
    }

    /** `handleCreateContent`. Disconnected: the wallet error and the synchronous
        start of `connect()`, and nothing else. Connected: one settlement alert;
        on success the wizard is back at step 1 with no type, file, preview or
        text, on failure it stays as it was; the flag ends lowered. */
    method HandleCreateContent(id: string, failed: bool)
      requires Valid()
      modifies this, wallet, wallet.alerts
      ensures Valid()
      ensures var o := Guarded(old(wallet.isConnected), failed, Created, CreateFailed);
        && wallet.alerts.alerts == old(wallet.alerts.alerts) + [Alert(id, o.kind, o.message)]
        && Fields() == (if o.ok then EmptyDraft else old(Fields()))
      ensures wallet.alerts.timers == old(wallet.alerts.timers) + multiset{id}
      ensures !old(wallet.isConnected) ==>
        wallet.Fields() == old(wallet.Fields()).(isLoading := true) && isProcessing == old(isProcessing)
      ensures old(wallet.isConnected) ==> wallet.Fields() == old(wallet.Fields()) && !isProcessing
    {
      if !wallet.isConnected {
        wallet.alerts.ShowAlert(id, Error, WalletNotConnected);
        wallet.BeginConnect();
        return;
      }
      isProcessing := true;
      if !failed {
        wallet.alerts.ShowAlert(id, Success, Created);
        Reset();
      } else {
        wallet.alerts.ShowAlert(id, Error, CreateFailed);
      }
      isProcessing := false;
    }

    /** `handleTokenization`, which the tokenization form calls with the data
        it accepted and which does not read that data: no wallet check, one
        alert, no reset, and the flag ends lowered. */
    method HandleTokenization(id: string, failed: bool)
      requires Valid()
      modifies this, wallet.alerts
      ensures Valid()
      ensures !failed ==> wallet.alerts.alerts == old(wallet.alerts.alerts) + [Alert(id, Success, Tokenized)]
      ensures failed ==> wallet.alerts.alerts == old(wallet.alerts.alerts) + [Alert(id, Error, TokenizeFailed)]
      ensures wallet.alerts.timers == old(wallet.alerts.timers) + multiset{id}
      ensures Fields() == old(Fields()) && !isProcessing
    {
      isProcessing := true;
      if !failed {
        wallet.alerts.ShowAlert(id, Success, Tokenized);
      } else {
        wallet.alerts.ShowAlert(id, Error, TokenizeFailed);
      }
      isProcessing := false;
    }
  }
}
