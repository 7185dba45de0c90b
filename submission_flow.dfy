/**
 * The create-collection submission handler as a specification: the calls it
 * makes, in order, given the page's state and how each external call settles.
 * The try block either runs to its end or stops at the first error; the catch
 * block alerts that error; the finally block clears the busy flag.
 */
module SubmissionFlow {
  import opened Wrappers
  import opened JsValues
  import opened Collection
  import opened Gating

  /** The guards in the order the handler checks them. */
  const GuardOrder: seq<Guard> := [NoWallet, NoFiles, WrongAccount, UploadInProgress]

  /** Whether one guard, taken on its own, rejects the state. */
  predicate GuardFails(v: PageView, g: Guard) {
    match g
    case NoWallet => v.account.None?
    case NoFiles => v.files.None?
    case WrongAccount => !IsCreatorAccount(v)
    case UploadInProgress => v.isUploading
  }

  /** The guard whose error the handler throws, if any. */
  function FirstFailedGuard(v: PageView): (g: Option<Guard>)
    ensures g.Some? ==> GuardFails(v, g.value)
    ensures g.None? <==> v.account.Some? && v.files.Some? && IsCreatorAccount(v) && !v.isUploading
  {
    if v.account.None? then Some(NoWallet)
    else if v.files.None? then Some(NoFiles)
    else if v.account.value.address != v.creator then Some(WrongAccount)
    else if v.isUploading then Some(UploadInProgress)
    else None
  }

  /** The reported guard is the first one in GuardOrder that fails; none is reported when none fails. */
  lemma GuardPrecedence(v: PageView)
    ensures FirstFailedGuard(v).None? <==> forall k :: 0 <= k < |GuardOrder| ==> !GuardFails(v, GuardOrder[k])
    ensures forall k :: 0 <= k < |GuardOrder| ==>
      (FirstFailedGuard(v) == Some(GuardOrder[k]) <==>
         GuardFails(v, GuardOrder[k]) && forall j :: 0 <= j < k ==> !GuardFails(v, GuardOrder[j]))
  {
    assert GuardOrder[0] == NoWallet && GuardOrder[1] == NoFiles;
    assert GuardOrder[2] == WrongAccount && GuardOrder[3] == UploadInProgress;
    forall k | 0 <= k < |GuardOrder|
      ensures FirstFailedGuard(v) == Some(GuardOrder[k]) <==>
        GuardFails(v, GuardOrder[k]) && forall j :: 0 <= j < k ==> !GuardFails(v, GuardOrder[j])
    {
      if k >= 1 { assert GuardOrder[0] in GuardOrder[..k]; }
      if k >= 2 { assert GuardOrder[1] in GuardOrder[..k]; }
      if k >= 3 { assert GuardOrder[2] in GuardOrder[..k]; }
    }
  }

  /** The argument object built from the page state and the upload result. */
  function BuildArgs(v: PageView, meta: CollectionMeta): CreateCollectionArgs {
    CreateCollectionArgs(
      collectionDescription := meta.collectionDescription,
      collectionName := meta.collectionName,
      projectUri := meta.projectUri,
      maxSupply := meta.maxSupply,
      royaltyPercentage := v.royaltyPercentage,
      preMintAmount := v.preMintAmount,
      allowList := None,
      allowListStartDate := None,
      allowListEndDate := None,
      allowListLimitPerAccount := None,
      allowListFeePerNFT := None,
      publicMintStartDate := v.startDate,
      publicMintEndDate := v.endDate,
      publicMintLimitPerAccount := v.mintLimit,
      publicMintFeePerNFT := v.mintFee)
  }

  /** The try block: the calls it makes and the error it ends with, if any. */
  function TryBlock(v: PageView, upload: UploadOutcome, submit: SubmitOutcome, commit: CommitOutcome)
    : (r: (seq<Effect>, Option<Thrown>))
    ensures r.1.None? <==> FirstFailedGuard(v).None? && upload.Uploaded? && submit.Submitted? && commit.Committed?
    ensures FirstFailedGuard(v).Some? ==> r.0 == []
    ensures |r.0| <= 5
  {
    match FirstFailedGuard(v)
    case Some(g) => ([], Some(Rejected(g)))
    case None =>
      var started := [SetIsUploading(true), UploadCollectionData(v.files.value)];
      match upload
      case UploadFailed(e) => (started, Some(ExternalError(e)))
      case Uploaded(meta) =>
        var signed := started + [SignAndSubmit(BuildArgs(v, meta))];
        match submit
        case SubmitFailed(e) => (signed, Some(ExternalError(e)))
        case Submitted(hash) =>
          var waited := signed + [WaitForTransaction(hash)];
          match commit
          case WaitFailed(e) => (waited, Some(ExternalError(e)))
          case Committed(success) =>
            (waited + (if success then [Navigate(MyCollectionsPath)] else []), None)
  }

  /** The whole handler: the try block, then the alert of the catch block, then the finally block. */
  function CreateFlow(v: PageView, upload: UploadOutcome, submit: SubmitOutcome, commit: CommitOutcome)
    : (effects: seq<Effect>)
    ensures 2 <= |effects| <= 7 && effects[|effects| - 1] == SetIsUploading(false)
  {
    var (calls, thrown) := TryBlock(v, upload, submit, commit);
    calls + (if thrown.Some? then [Alert(AlertText(thrown.value))] else []) + [SetIsUploading(false)]
  }

  /**
   * Every exit clears the busy flag, and nothing sets it again afterwards; a
   * rejected guard is alerted with nothing external called; with every guard
   * passed, the flag is set first and the upload of the selected files comes
   * next; navigation happens exactly when the commit reports success.
   */
  lemma FlowExits(v: PageView, upload: UploadOutcome, submit: SubmitOutcome, commit: CommitOutcome)
    ensures var effects := CreateFlow(v, upload, submit, commit);
      && |effects| >= 2 && effects[|effects| - 1] == SetIsUploading(false)
      && (forall i :: 0 <= i < |effects| && effects[i] == SetIsUploading(true) ==> i == 0)
      && (FirstFailedGuard(v).Some? ==>
            effects == [Alert(AlertText(Rejected(FirstFailedGuard(v).value))), SetIsUploading(false)])
      && (FirstFailedGuard(v).None? ==>
            v.files.Some? && effects[0] == SetIsUploading(true) && effects[1] == UploadCollectionData(v.files.value))
      && (Navigate(MyCollectionsPath) in effects <==>
            FirstFailedGuard(v).None? && upload.Uploaded? && submit.Submitted? && commit == Committed(true))
  {
  }

  predicate IsUpload(e: Effect) { e.UploadCollectionData? }
  predicate IsSign(e: Effect) { e.SignAndSubmit? }
  predicate IsWait(e: Effect) { e.WaitForTransaction? }

  /**
   * Upload, sign-and-submit and wait-for-commit each happen at most once, in
   * that order, each only when every earlier step returned.
   */
  lemma StepsInOrder(v: PageView, upload: UploadOutcome, submit: SubmitOutcome, commit: CommitOutcome)
    ensures var effects := CreateFlow(v, upload, submit, commit);
      && ((exists i :: 0 <= i < |effects| && IsUpload(effects[i])) <==> FirstFailedGuard(v).None?)
      && ((exists i :: 0 <= i < |effects| && IsSign(effects[i])) <==>
            FirstFailedGuard(v).None? && upload.Uploaded?)
      && ((exists i :: 0 <= i < |effects| && IsWait(effects[i])) <==>
            FirstFailedGuard(v).None? && upload.Uploaded? && submit.Submitted?)
      && (forall i :: 0 <= i < |effects| && IsUpload(effects[i]) ==> i == 1)
      && (forall i :: 0 <= i < |effects| && IsSign(effects[i]) ==> i == 2)
      && (forall i :: 0 <= i < |effects| && IsWait(effects[i]) ==> i == 3)
  {
    var effects := CreateFlow(v, upload, submit, commit);
    if FirstFailedGuard(v).None? {
      assert IsUpload(effects[1]);
    }
    if FirstFailedGuard(v).None? && upload.Uploaded? {
      assert IsSign(effects[2]);
      if submit.Submitted? {
        assert IsWait(effects[3]);
      }
    }
  }

  /**
   * The signed payload carries the upload result and the entered fields
   * unchanged, and every allow-list field is left undefined.
   */
  lemma PayloadFields(v: PageView, upload: UploadOutcome, submit: SubmitOutcome, commit: CommitOutcome, i: nat)
    requires i < |CreateFlow(v, upload, submit, commit)|
    requires CreateFlow(v, upload, submit, commit)[i].SignAndSubmit?
    ensures upload.Uploaded?
    ensures var a := CreateFlow(v, upload, submit, commit)[i].args;
      && a.collectionName == upload.meta.collectionName
      && a.collectionDescription == upload.meta.collectionDescription
      && a.projectUri == upload.meta.projectUri
      && a.maxSupply == upload.meta.maxSupply
      && a.royaltyPercentage == v.royaltyPercentage && a.preMintAmount == v.preMintAmount
      && a.publicMintStartDate == v.startDate && a.publicMintEndDate == v.endDate
      && a.publicMintLimitPerAccount == v.mintLimit && a.publicMintFeePerNFT == v.mintFee
      && a.allowList.None? && a.allowListStartDate.None? && a.allowListEndDate.None?
      && a.allowListLimitPerAccount.None? && a.allowListFeePerNFT.None?
  {
  }

  /** The wait is for exactly the hash that sign-and-submit returned. */
  lemma WaitUsesSubmittedHash(v: PageView, upload: UploadOutcome, submit: SubmitOutcome, commit: CommitOutcome, i: nat)
    requires i < |CreateFlow(v, upload, submit, commit)|
    requires CreateFlow(v, upload, submit, commit)[i].WaitForTransaction?
    ensures submit.Submitted? && CreateFlow(v, upload, submit, commit)[i].hash == submit.hash
  {
  }

  /**
   * At most one alert is raised, and it shows exactly the error that ended
   * the try block; navigation and an alert never happen together; a commit
   * that reports failure raises neither.
   */
  lemma AlertsAndNavigation(v: PageView, upload: UploadOutcome, submit: SubmitOutcome, commit: CommitOutcome)
    ensures var effects := CreateFlow(v, upload, submit, commit);
      var thrown := TryBlock(v, upload, submit, commit).1;
      && (forall i, j :: 0 <= i < |effects| && 0 <= j < |effects| && effects[i].Alert? && effects[j].Alert? ==> i == j)
      && ((exists i :: 0 <= i < |effects| && effects[i].Alert?) <==> thrown.Some?)
      && (forall i :: 0 <= i < |effects| && effects[i].Alert? ==> effects[i].text == AlertText(thrown.value))
      && (Navigate(MyCollectionsPath) in effects ==> thrown.None?)
      && (FirstFailedGuard(v).None? && upload.Uploaded? && submit.Submitted? && commit == Committed(false)
          ==> thrown.None? && Navigate(MyCollectionsPath) !in effects)
  {
    var effects := CreateFlow(v, upload, submit, commit);
    var (calls, thrown) := TryBlock(v, upload, submit, commit);
    assert forall i :: 0 <= i < |calls| ==> !calls[i].Alert?;
    if thrown.Some? {
      assert effects == calls + [Alert(AlertText(thrown.value)), SetIsUploading(false)];
      assert effects[|calls|].Alert?;
    } else {
      assert effects == calls + [SetIsUploading(false)];
    }
  }

  /** The error that ends the try block is the first failing step's. */
  lemma ThrownIsFirstFailure(v: PageView, upload: UploadOutcome, submit: SubmitOutcome, commit: CommitOutcome)
    ensures var thrown := TryBlock(v, upload, submit, commit).1;
      thrown == (
        if FirstFailedGuard(v).Some? then Some(Rejected(FirstFailedGuard(v).value))
        else if upload.UploadFailed? then Some(ExternalError(upload.error))
        else if submit.SubmitFailed? then Some(ExternalError(submit.error))
        else if commit.WaitFailed? then Some(ExternalError(commit.error))
        else None)
  {
  }

  /** The successful run, call by call. */
  lemma SuccessfulFlow(v: PageView, meta: CollectionMeta, hash: string)
    requires FirstFailedGuard(v).None?
    ensures v.files.Some?
    ensures CreateFlow(v, Uploaded(meta), Submitted(hash), Committed(true))
         == [SetIsUploading(true), UploadCollectionData(v.files.value), SignAndSubmit(BuildArgs(v, meta)),
             WaitForTransaction(hash), Navigate(MyCollectionsPath), SetIsUploading(false)]
  {
  }

  /** The four guards alert four different texts, so the alert tells which check failed. */
  lemma GuardAlertsDistinct(g1: Guard, g2: Guard)
    requires AlertText(Rejected(g1)) == AlertText(Rejected(g2))
    ensures g1 == g2
  {
  }

  /** A click while a flow is in progress is rejected and, through finally, still clears the busy flag. */
  lemma BusyRejectionClearsFlag(v: PageView, upload: UploadOutcome, submit: SubmitOutcome, commit: CommitOutcome)
    requires IsCreatorAccount(v) && v.files.Some? && v.isUploading
    ensures CreateFlow(v, upload, submit, commit)
         == [Alert(ErrorString("Uploading in progress")), SetIsUploading(false)]
  {
  }

  /**
   * When the Create button is enabled, the only guard that can still reject
   * the click is the creator-account check, which the button does not test.
   */
  lemma EnabledButtonGuards(v: PageView)
    requires !CreateButtonDisabled(v)
    ensures FirstFailedGuard(v).None? <==> IsCreatorAccount(v)
    ensures FirstFailedGuard(v).Some? ==> FirstFailedGuard(v) == Some(WrongAccount) && AccountWarning(v).Some?
  {
  }

  /** The two account guards reject exactly the states in which the account warning is shown. */
  lemma AccountGuardsMatchWarning(v: PageView)
    ensures (FirstFailedGuard(v) == Some(NoWallet) || FirstFailedGuard(v) == Some(WrongAccount)) ==> AccountWarning(v).Some?
    ensures AccountWarning(v).Some? && v.files.Some? ==>
      FirstFailedGuard(v) == Some(NoWallet) || FirstFailedGuard(v) == Some(WrongAccount)
  {
  }
}
