/**
 * The boolean expressions that enable or disable parts of the page: the
 * Create button, the account warning and its title, the wallet warning,
 * the folder input and the form inputs.
 */
module Gating {
  import opened Wrappers
  import opened JsValues
  import opened Collection

  /** `!!files?.length`: a FileList is selected and holds at least one file. */
  predicate HasFiles(files: Option<seq<FileEntry>>) {
    files.Some? && |files.value| > 0
  }

  /** The connected account is the configured creator account. */
  predicate IsCreatorAccount(v: PageView) {
    v.account.Some? && v.account.value.address == v.creator
  }

  /** The Create button's `disabled` expression (the account test appears twice in it). */
  predicate CreateButtonDisabled(v: PageView) {
    v.account.None? || !HasFiles(v.files) || v.startDate.None? || !Truthy(v.mintLimit)
    || v.account.None? || v.isUploading
  }

  /** The title of the account warning, when the warning is shown. */
  function AccountWarning(v: PageView): (title: Option<string>)
    ensures title.None? <==> IsCreatorAccount(v)
  {
    if v.account.None? || v.account.value.address != v.creator then
      Some(if v.account.Some? then "Incorrect Account" else "No Wallet Connected")
    else None
  }

  /** The "Wallet Not Supported" warning. */
  predicate WalletNotSupported(v: PageView) {
    v.wallet.Some? && v.wallet.value.isAptosConnect
  }

  /** The folder input's `disabled` expression. */
  predicate UploadInputDisabled(v: PageView) {
    v.isUploading || v.account.None? || v.wallet.None? || v.wallet.value.isAptosConnect
  }

  /** The `disabled` expression shared by the date, time and number inputs. */
  predicate FormInputsDisabled(v: PageView)
    ensures FormInputsDisabled(v) ==> CreateButtonDisabled(v) && UploadInputDisabled(v)
  {
    v.isUploading || v.account.None?
  }

  /** The account warning is shown exactly when the account is not the creator's, with the title naming why. */
  lemma AccountWarningShown(v: PageView)
    ensures AccountWarning(v).None? <==> IsCreatorAccount(v)
    ensures AccountWarning(v) == Some("No Wallet Connected") <==> v.account.None?
    ensures AccountWarning(v) == Some("Incorrect Account")
        <==> v.account.Some? && v.account.value.address != v.creator
  {
  }

  /** The Create button is enabled exactly when every part of its condition is met. */
  lemma CreateButtonEnabled(v: PageView)
    ensures !CreateButtonDisabled(v) <==>
      v.account.Some? && v.files.Some? && |v.files.value| > 0 && v.startDate.Some?
      && v.mintLimit.Int? && v.mintLimit.value != 0 && !v.isUploading
  {
  }

  /** A typed whole number n meets the button's mint-limit condition exactly when n is not 0. */
  lemma MintLimitTyped(n: nat)
    ensures Truthy(ParseInt(DecimalString(n))) <==> n != 0
  {
    ParseIntDecimal(n);
  }

  /** Clearing the mint limit makes parseInt return NaN, which disables the Create button. */
  lemma MintLimitCleared(v: PageView)
    requires v.mintLimit == ParseInt([])
    ensures CreateButtonDisabled(v)
  {
  }

  /** The initial mint limit of 1 does not by itself disable the Create button. */
  lemma InitialMintLimit(creator: string, account: Option<Account>, wallet: Option<Wallet>)
    ensures Truthy(InitialView(creator, account, wallet).mintLimit)
    ensures CreateButtonDisabled(InitialView(creator, account, wallet))
  {
  }

  /** While uploading, the button, the folder input and the form inputs are all disabled. */
  lemma BusyDisablesEverything(v: PageView)
    requires v.isUploading
    ensures CreateButtonDisabled(v) && UploadInputDisabled(v) && FormInputsDisabled(v)
  {
  }

  /** A wallet the page does not support can never select a folder. */
  lemma UnsupportedWalletCannotUpload(v: PageView)
    requires WalletNotSupported(v)
    ensures UploadInputDisabled(v)
  {
  }
}
