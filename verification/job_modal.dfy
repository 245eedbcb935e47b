/** The job detail modal and its apply button. The application is sent straight to the
    contract object (in mock mode the mock contract, whose `applyForJob` accepts anything and
    stores nothing), not through the provider's `applyForJob`. Whether the send fails is a
    parameter: a live wallet may reject it, the mock never does. */
module JobModal {
  import opened Wrappers
  import opened Records
  import Js
  import Web3Context

  const ConnectMessage: string := "Please connect your wallet"
  const RegisterMessage: string := "Please register first"
  const FreelancersOnlyMessage: string := "Only freelancers can apply for jobs"
  const ProposalMessage: string := "Please write a proposal"
  const SubmittedMessage: string := "Application submitted successfully!"
  const DefaultFailureMessage: string := "Failed to submit application"

  /** The checks `handleApply` makes before sending, in their order; `None` means send. */
  function ApplyGuard(contractLoaded: bool, account: Option<string>, user: Option<UserRecord>,
                      proposal: string): (r: Option<string>)
    ensures !contractLoaded || !Truthy(account) ==> r == Some(ConnectMessage)
    ensures contractLoaded && Truthy(account) && !IsRegisteredUser(user) ==> r == Some(RegisterMessage)
    ensures contractLoaded && Truthy(account) && IsRegisteredUser(user) && CodeIs(user.value.userType, "0") ==>
      r == Some(FreelancersOnlyMessage)
    ensures (contractLoaded && Truthy(account) && IsRegisteredUser(user) && !CodeIs(user.value.userType, "0")
             && Js.Trim(proposal) == "") ==> r == Some(ProposalMessage)
    ensures r.None? <==>
      (contractLoaded && Truthy(account) && IsRegisteredUser(user)
       && !CodeIs(user.value.userType, "0") && Js.Trim(proposal) != "")
  {
    if !contractLoaded || !Truthy(account) then Some(ConnectMessage)
    else if !IsRegisteredUser(user) then Some(RegisterMessage)
    else if CodeIs(user.value.userType, "0") then Some(FreelancersOnlyMessage)
    else if Js.Trim(proposal) == "" then Some(ProposalMessage)
    else None
  }

  /** A proposal of white space only is refused, whoever sends it. */
  lemma BlankProposalRefused(contractLoaded: bool, account: Option<string>, user: Option<UserRecord>,
                             proposal: string)
    requires forall i :: 0 <= i < |proposal| ==> Js.IsSpace(proposal[i])
    ensures ApplyGuard(contractLoaded, account, user, proposal).Some?
    ensures contractLoaded && Truthy(account) && IsRegisteredUser(user) && !CodeIs(user.value.userType, "0") ==>
      ApplyGuard(contractLoaded, account, user, proposal) == Some(ProposalMessage)
  {
    Js.TrimEmptyIffAllSpace(proposal);
  }

  /** The strict-equality check against "0" lets through a client whose record holds the
      number 0, which is what the registration form stores. */
  lemma NumericClientPassesGuard(account: string, user: UserRecord, proposal: string)
    requires account != "" && user.isRegistered && user.userType == NumCode(0)
    requires Js.Trim(proposal) != ""
    ensures ApplyGuard(true, Some(account), Some(user), proposal) == None
  {
  }

  /** `error.message || "Failed to submit application"`. */
  function FailureNotice(message: string): (r: string)
    ensures r != ""
    ensures message != "" ==> r == message
  {
    if message != "" then message else DefaultFailureMessage
  }

  /** What is handed to `contract.methods.applyForJob(...).send({ from })`. */
  datatype ApplySend = ApplySend(jobId: int, proposal: string, from: string)

  /** Nothing is drawn without a job, and a job is drawn only while the modal is open. */
  function Renders(job: Option<Job>, isOpen: bool): (r: bool)
    ensures r <==> job.Some? && isOpen
  {
    if job.None? then false else isOpen
  }

  class JobModalState {
    var proposal: string
    var loading: bool
    /** The parent's open flag, which `onClose` clears. */
    var isOpen: bool
    var notice: Option<string>

    constructor(isOpen0: bool)
      ensures proposal == "" && !loading && isOpen == isOpen0 && notice == None
    {
      proposal, loading, isOpen, notice := "", false, isOpen0, None;
    }

    method SetProposal(text: string)
      modifies this
      ensures proposal == text && loading == old(loading) && isOpen == old(isOpen)
      ensures notice == old(notice)
    {
      proposal := text;
    }

    /** `handleApply` for `job`, with the provider `p` as context. A failing check shows its
        message and sends nothing. Otherwise the untrimmed proposal is sent for `job.id` from
        the current account; on success the modal closes and the proposal is cleared, on
        failure (`sendError`) the proposal is kept and the error shown. Loading ends false
        either way. The provider's store is never touched. */
    method HandleApply(p: Web3Context.Provider, job: Job, sendError: Option<string>)
      returns (sent: Option<ApplySend>)
      modifies this
      ensures ApplyGuard(p.contractLoaded, p.account, p.user, old(proposal)).Some? ==>
        sent == None && notice == ApplyGuard(p.contractLoaded, p.account, p.user, old(proposal))
        && proposal == old(proposal) && isOpen == old(isOpen) && loading == old(loading)
      ensures ApplyGuard(p.contractLoaded, p.account, p.user, old(proposal)).None? ==>
        sent == Some(ApplySend(job.id, old(proposal), p.account.value)) && !loading
      ensures ApplyGuard(p.contractLoaded, p.account, p.user, old(proposal)).None? && sendError.None? ==>
        notice == Some(SubmittedMessage) && !isOpen && proposal == ""
      ensures ApplyGuard(p.contractLoaded, p.account, p.user, old(proposal)).None? && sendError.Some? ==>
        notice == Some(FailureNotice(sendError.value)) && isOpen == old(isOpen) && proposal == old(proposal)
    {
      var blocked := ApplyGuard(p.contractLoaded, p.account, p.user, proposal);
      if blocked.Some? {
        notice := blocked;
        return None;
      }
      loading := true;
      sent := Some(ApplySend(job.id, proposal, p.account.value));
      if sendError.None? {
        notice := Some(SubmittedMessage);
        isOpen := false;
        proposal := "";
      } else {
        notice := Some(FailureNotice(sendError.value));
      }
      loading := false;
    }
  }

  /** Applying, failing and applying again resends the same proposal: a failed send keeps it. */
  method RetryAfterFailure(m: JobModalState, p: Web3Context.Provider, job: Job, error: string)
    returns (first: Option<ApplySend>, second: Option<ApplySend>)
    requires ApplyGuard(p.contractLoaded, p.account, p.user, m.proposal).None?
    modifies m
    ensures first.Some? && first == second
    ensures m.proposal == "" && !m.isOpen
  {
    first := m.HandleApply(p, job, Some(error));
    second := m.HandleApply(p, job, None);
  }
}
