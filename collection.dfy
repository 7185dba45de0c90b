/**
 * The values the create-collection page works with: the wallet's account,
 * the selected files, what the uploader returns, the argument object of the
 * create-collection entry function, the outcomes of the three external calls,
 * and the calls the page makes, in the order it makes them.
 */
module Collection {
  import opened Wrappers
  import opened JsValues
  import opened JsDate

  /** The connected account; only its address is read. */
  datatype Account = Account(address: string)

  /** The connected wallet; `isAptosConnect` stands for `isAptosConnectWallet(wallet)`. */
  datatype Wallet = Wallet(name: string, isAptosConnect: bool)

  /** One entry of the selected folder's FileList. */
  datatype FileEntry = FileEntry(path: string)

  /** The mint fee as typed; `Number(entered)` is a floating-point value this model does not evaluate. */
  datatype Fee = Fee(entered: string)

  /** What `uploadCollectionData` resolves with. */
  datatype CollectionMeta = CollectionMeta(
    collectionName: string,
    collectionDescription: string,
    maxSupply: int,
    projectUri: string)

  /** The object handed to `createCollection`, whose result is signed and submitted. */
  datatype CreateCollectionArgs = CreateCollectionArgs(
    collectionDescription: string,
    collectionName: string,
    projectUri: string,
    maxSupply: int,
    royaltyPercentage: Option<Num>,
    preMintAmount: Option<Num>,
    allowList: Option<seq<string>>,
    allowListStartDate: Option<DateValue>,
    allowListEndDate: Option<DateValue>,
    allowListLimitPerAccount: Option<Num>,
    allowListFeePerNFT: Option<Fee>,
    publicMintStartDate: Option<DateValue>,
    publicMintEndDate: Option<DateValue>,
    publicMintLimitPerAccount: Num,
    publicMintFeePerNFT: Option<Fee>)

  /** How `uploadCollectionData` settles. */
  datatype UploadOutcome = Uploaded(meta: CollectionMeta) | UploadFailed(error: string)

  /** How `signAndSubmitTransaction` (including building the payload) settles. */
  datatype SubmitOutcome = Submitted(hash: string) | SubmitFailed(error: string)

  /** How `waitForTransaction` settles. */
  datatype CommitOutcome = Committed(success: bool) | WaitFailed(error: string)

  /** The four checks made before anything is uploaded, in the order they are made. */
  datatype Guard = NoWallet | NoFiles | WrongAccount | UploadInProgress

  /** The message of the Error each guard throws. */
  function GuardMessage(g: Guard): string {
    match g
    case NoWallet => "Please connect your wallet"
    case NoFiles => "Please upload files"
    case WrongAccount => "Wrong account"
    case UploadInProgress => "Uploading in progress"
  }

  /** What reaches the catch block: a rejected guard, or whatever an external call threw. */
  datatype Thrown = Rejected(guard: Guard) | ExternalError(error: string)

  /** `String(new Error(message))`, the text `alert` shows for an Error. */
  function ErrorString(message: string): string {
    "Error: " + message
  }

  /**
   * The text `alert(error)` shows: a guard's Error reads as its message after
   * the "Error: " prefix; an external call's error is kept as its own text.
   */
  function AlertText(t: Thrown): string {
    match t
    case Rejected(g) => ErrorString(GuardMessage(g))
    case ExternalError(e) => e
  }

  /** One call the submission handler makes. */
  datatype Effect =
    | SetIsUploading(busy: bool)
    | UploadCollectionData(files: seq<FileEntry>)
    | SignAndSubmit(args: CreateCollectionArgs)
    | WaitForTransaction(hash: string)
    | Navigate(path: string)
    | Alert(text: string)

  const MyCollectionsPath: string := "/my-collections"

  /** The page's state as one render sees it. */
  datatype PageView = PageView(
    account: Option<Account>,
    wallet: Option<Wallet>,
    creator: string,
    royaltyPercentage: Option<Num>,
    preMintAmount: Option<Num>,
    startDate: Option<DateValue>,
    startTime: Option<string>,
    endDate: Option<DateValue>,
    endTime: Option<string>,
    mintLimit: Num,
    mintFee: Option<Fee>,
    files: Option<seq<FileEntry>>,
    isUploading: bool)

  /** The state right after the page mounts: nothing entered, mint limit 1, not uploading. */
  function InitialView(creator: string, account: Option<Account>, wallet: Option<Wallet>): PageView {
    PageView(account, wallet, creator, None, None, None, None, None, None, Int(1), None, None, false)
  }
}
