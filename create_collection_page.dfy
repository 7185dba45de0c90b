/**
 * The create-collection page as a stateful object: the fields its React
 * state hooks hold, the handlers that update them, and the submission
 * handler, whose external calls settle as its parameters say.
 */
module CreateCollectionPage {
  import opened Wrappers
  import opened JsValues
  import opened JsDate
  import opened TimeOfDay
  import opened Collection
  import opened Gating
  import opened SubmissionFlow

  /** The date part of a time handler: overwrite hours and minutes in place and zero the seconds. */
  method MergeTimeInto(date: Date, timeValue: string)
    requires IsTimeInputValue(timeValue)
    modifies date
    ensures date.Value() == MergeTime(old(date.Value()), timeValue)
  {
    TimeInputParts(timeValue);
    var (hours, minutes) := TimeParts(timeValue);
    date.SetHours(hours);
    date.SetMinutes(minutes);
    date.SetSeconds(Int(0));
  }

  class Page {
    /** The configured creator address. */
    const creator: string

    /** What the wallet hook reports on the current render. */
    var account: Option<Account>
    var wallet: Option<Wallet>

    var royaltyPercentage: Option<Num>
    var preMintAmount: Option<Num>
    var startDate: Date?
    var startTime: Option<string>
    var endDate: Date?
    var endTime: Option<string>
    var mintLimit: Num
    var mintFee: Option<Fee>
    var files: Option<seq<FileEntry>>
    var isUploading: bool

    /** Every call the submission handler has made, oldest first. */
    var effects: seq<Effect>

    function DateOf(d: Date?): Option<DateValue>
      reads d
    {
      if d == null then None else Some(d.Value())
    }

    function View(): PageView
      reads this, startDate, endDate
    {
      PageView(account, wallet, creator, royaltyPercentage, preMintAmount,
               DateOf(startDate), startTime, DateOf(endDate), endTime,
               mintLimit, mintFee, files, isUploading)
    }

    constructor (creator: string, account: Option<Account>, wallet: Option<Wallet>)
      ensures View() == InitialView(creator, account, wallet)
      ensures startDate == null && endDate == null && effects == []
    {
      this.creator := creator;
      this.account, this.wallet := account, wallet;
      royaltyPercentage, preMintAmount := None, None;
      startDate, startTime, endDate, endTime := null, None, null, None;
      mintLimit := Int(1);
      mintFee := None;
      files := None;
      isUploading := false;
      effects := [];
    }

    /** A render with what the wallet hook now reports. */
    method WalletChanged(account: Option<Account>, wallet: Option<Wallet>)
      modifies this`account, this`wallet
      ensures this.account == account && this.wallet == wallet
    {
      this.account, this.wallet := account, wallet;
    }

    /** The date picker of the mint start stores the chosen Date object. */
    method OnStartDateChange(d: Date?)
      modifies this`startDate
      ensures startDate == d
    {
      startDate := d;
    }

    /** The date picker of the mint end stores the chosen Date object. */
    method OnEndDateChange(d: Date?)
      modifies this`endDate
      ensures endDate == d
    {
      endDate := d;
    }

    /**
     * The time input of the mint start: the text is stored, and the selected
     * start Date, if any, is changed in place. The same object is stored
     * back, so the field still refers to it.
     */
    method OnPublicMintStartTime(timeValue: string)
      requires IsTimeInputValue(timeValue)
      modifies this`startTime, startDate
      ensures startTime == Some(timeValue)
      ensures startDate != null ==> startDate.Value() == MergeTime(old(startDate.Value()), timeValue)
      ensures endDate != null && endDate != startDate ==> endDate.Value() == old(endDate.Value())
    {
      startTime := Some(timeValue);
      if startDate != null {
        MergeTimeInto(startDate, timeValue);
      }
    }

    /** The time input of the mint end, the same steps on the end Date. */
    method OnPublicMintEndTime(timeValue: string)
      requires IsTimeInputValue(timeValue)
      modifies this`endTime, endDate
      ensures endTime == Some(timeValue)
      ensures endDate != null ==> endDate.Value() == MergeTime(old(endDate.Value()), timeValue)
      ensures startDate != null && startDate != endDate ==> startDate.Value() == old(startDate.Value())
    {
      endTime := Some(timeValue);
      if endDate != null {
        MergeTimeInto(endDate, timeValue);
      }
    }

    method OnMintLimitInput(text: string)
      modifies this`mintLimit
      ensures mintLimit == ParseInt(text)
    {
      mintLimit := ParseInt(text);
    }

    method OnRoyaltyInput(text: string)
      modifies this`royaltyPercentage
      ensures royaltyPercentage == Some(ParseInt(text))
    {
      royaltyPercentage := Some(ParseInt(text));
    }

    method OnMintFeeInput(text: string)
      modifies this`mintFee
      ensures mintFee == Some(Fee(text))
    {
      mintFee := Some(Fee(text));
    }

    method OnPreMintInput(text: string)
      modifies this`preMintAmount
      ensures preMintAmount == Some(ParseInt(text))
    {
      preMintAmount := Some(ParseInt(text));
    }

    /** The folder input stores its FileList (which the browser may report as null). */
    method OnFilesSelected(selection: Option<seq<FileEntry>>)
      modifies this`files
      ensures files == selection
    {
      files := selection;
    }

    /** The Clear link drops the selection. */
    method OnClearFiles()
      modifies this`files
      ensures files.None?
    {
      files := None;
    }

    /** `setIsUploading(b)`: the flag changes and the call is recorded. */
    method SetBusy(b: bool)
      modifies this`isUploading, this`effects
      ensures isUploading == b && effects == old(effects) + [SetIsUploading(b)]
    {
      isUploading := b;
      effects := effects + [SetIsUploading(b)];
    }

    method Record(e: Effect)
      modifies this`effects
      ensures effects == old(effects) + [e]
    {
      effects := effects + [e];
    }

    /**
     * The steps of the try block after every guard passed: set the busy flag,
     * upload, sign and submit, wait for the commit, navigate on success. It
     * returns the error that stops it, if any.
     */
    method RunSteps(ghost v: PageView, upload: UploadOutcome, submit: SubmitOutcome, commit: CommitOutcome)
      returns (thrown: Option<Thrown>, ghost calls: seq<Effect>)
      requires v == View() && FirstFailedGuard(v).None?
      modifies this`isUploading, this`effects
      ensures isUploading
      ensures effects == old(effects) + calls
      ensures (calls, thrown) == TryBlock(v, upload, submit, commit)
    {
      SetBusy(true);
      Record(UploadCollectionData(files.value));
      calls := [SetIsUploading(true), UploadCollectionData(files.value)];
      thrown := None;
      match upload {
        case UploadFailed(e) =>
          thrown := Some(ExternalError(e));
        case Uploaded(meta) =>
          var args := CreateCollectionArgs(
            collectionDescription := meta.collectionDescription,
            collectionName := meta.collectionName,
            projectUri := meta.projectUri,
            maxSupply := meta.maxSupply,
            royaltyPercentage := royaltyPercentage,
            preMintAmount := preMintAmount,
            allowList := None,
            allowListStartDate := None,
            allowListEndDate := None,
            allowListLimitPerAccount := None,
            allowListFeePerNFT := None,
            publicMintStartDate := DateOf(startDate),
            publicMintEndDate := DateOf(endDate),
            publicMintLimitPerAccount := mintLimit,
            publicMintFeePerNFT := mintFee);
          assert args == BuildArgs(v, meta);
          Record(SignAndSubmit(args));
          calls := calls + [SignAndSubmit(args)];
          match submit {
            case SubmitFailed(e) =>
              thrown := Some(ExternalError(e));
            case Submitted(hash) =>
              Record(WaitForTransaction(hash));
              calls := calls + [WaitForTransaction(hash)];
              match commit {
                case WaitFailed(e) =>
                  thrown := Some(ExternalError(e));
                case Committed(success) =>
                  if success {
                    Record(Navigate(MyCollectionsPath));
                    calls := calls + [Navigate(MyCollectionsPath)];
                  } else {
                    assert calls + [] == calls;
                  }
              }
          }
      }
    }

    /**
     * The Create button's handler. Upload, sign-and-submit and
     * wait-for-commit settle as `upload`, `submit` and `commit` say; the
     * calls made are those of CreateFlow, and the busy flag ends up cleared.
     */
    method OnCreateCollection(upload: UploadOutcome, submit: SubmitOutcome, commit: CommitOutcome)
      modifies this`isUploading, this`effects
      ensures !isUploading
      ensures View() == old(View()).(isUploading := false)
      ensures effects == old(effects) + CreateFlow(old(View()), upload, submit, commit)
    {
      ghost var v := View();
      ghost var calls: seq<Effect> := [];
      var thrown: Option<Thrown>;
      // try
      if account.None? {
        thrown := Some(Rejected(NoWallet));
      } else if files.None? {
        thrown := Some(Rejected(NoFiles));
      } else if account.value.address != creator {
        thrown := Some(Rejected(WrongAccount));
      } else if isUploading {
        thrown := Some(Rejected(UploadInProgress));
      } else {
        thrown, calls := RunSteps(v, upload, submit, commit);
      }
      assert effects == old(effects) + calls;
      assert (calls, thrown) == TryBlock(v, upload, submit, commit);
      // catch
      if thrown.Some? {
        Record(Alert(AlertText(thrown.value)));
      }
      // finally
      SetBusy(false);
    }
  }

  /** The creator connects, selects a folder and picks a start date; the mint limit keeps its initial value of 1. */
  method CreatorPicksDate(creator: string, wallet: Wallet, folder: seq<FileEntry>, start: DateValue)
    returns (page: Page)
    ensures fresh(page) && fresh(page.startDate) && page.effects == [] && page.endDate == null
    ensures page.View() == InitialView(creator, Some(Account(creator)), Some(wallet))
      .(files := Some(folder), startDate := Some(start))
  {
    page := new Page(creator, Some(Account(creator)), Some(wallet));
    page.OnFilesSelected(Some(folder));
    var date := new Date(start);
    page.OnStartDateChange(date);
  }

  /** The same steps, followed by setting the start's time of day to h:m. */
  method CreatorFillsForm(creator: string, wallet: Wallet, folder: seq<FileEntry>,
                          start: DateValue, h: nat, m: nat)
    returns (page: Page)
    requires h < 24 && m < 60
    ensures fresh(page) && page.effects == []
    ensures page.View() == InitialView(creator, Some(Account(creator)), Some(wallet))
      .(files := Some(folder), startDate := Some(MergeTime(start, FormatTime(h, m))),
        startTime := Some(FormatTime(h, m)))
  {
    page := CreatorPicksDate(creator, wallet, folder, start);
    page.OnPublicMintStartTime(FormatTime(h, m));
  }

  /**
   * After filling in the form as above, with every external call
   * succeeding, the page navigates to the collection list, signs the
   * upload's supply and the start date at h:m:00, and is no longer busy.
   */
  method CreatorCreatesCollection(creator: string, wallet: Wallet, folder: seq<FileEntry>,
                                  start: DateValue, h: nat, m: nat,
                                  meta: CollectionMeta, hash: string)
    returns (made: seq<Effect>, busy: bool)
    requires |folder| > 0 && h < 24 && m < 60
    ensures Navigate(MyCollectionsPath) in made && !busy
    ensures |made| == 6 && made[2].SignAndSubmit?
    ensures made[2].args.maxSupply == meta.maxSupply
    ensures made[2].args.publicMintStartDate == Some(MergeTime(start, FormatTime(h, m)))
    ensures start.Valid? ==>
      made[2].args.publicMintStartDate == Some(Valid(start.year, start.month, start.day, h, m, 0, start.millis))
    ensures made[2].args.publicMintLimitPerAccount == Int(1)
    ensures made[3] == WaitForTransaction(hash)
  {
    var page := CreatorFillsForm(creator, wallet, folder, start, h, m);
    ghost var v := page.View();
    assert FirstFailedGuard(v).None?;
    SuccessfulFlow(v, meta, hash);
    page.OnCreateCollection(Uploaded(meta), Submitted(hash), Committed(true));
    made, busy := page.effects, page.isUploading;
    if start.Valid? {
      MergeTimeFields(start, h, m);
    }
  }

  /** A connected account other than the creator's: the click is rejected and nothing is uploaded. */
  method OtherAccountClicks(creator: string, other: string, wallet: Wallet, folder: seq<FileEntry>,
                            upload: UploadOutcome, submit: SubmitOutcome, commit: CommitOutcome)
    returns (made: seq<Effect>)
    requires other != creator
    ensures made == [Alert(ErrorString("Wrong account")), SetIsUploading(false)]
  {
    var page := new Page(creator, Some(Account(other)), Some(wallet));
    page.OnFilesSelected(Some(folder));
    assert AccountWarning(page.View()) == Some("Incorrect Account");
    page.OnCreateCollection(upload, submit, commit);
    made := page.effects;
  }
}
