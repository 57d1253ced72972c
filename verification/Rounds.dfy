/** What the rounds of processor_s and sender do not skip: a round ends early only when there is nothing to do or a
    statement fails, and nothing that was taken is forgotten. */
module Rounds {
  import opened Text
  import opened Tables
  import opened Channels
  import opened Pipeline
  import opened PipelineInv

  // ---- the processor -----------------------------------------------------------------------

  /** The processor releases a lock only after it has found nothing, a statement has failed, or the slot has been
      cleared or announced. */
  predicate EndsPart(a: Pipe, act: Act, b: Pipe) {
    match b.p
    case PUnlockRead => act == FindStatus(-1) || act == Erase
    case PUnlockSend => act == FindRoom(-1) || act == RequestFails || act == PostRequest
    case PUnlockGive => act == FindDataRoom(-1) || act == FetchFails || act == PostJob
    case PPostComm => act == PublishRequest
    case PPostData => act == PublishJob
    case _ => true
  }

  lemma RoundEnds(a: Pipe, act: Act, b: Pipe)
    requires ProcessorStep(a, act, b)
    ensures EndsPart(a, act, b)
  {
    hide ReadStep, RequestStep, GiveStep, EndsPart;
    if ReadStep(a, act, b) { ReadEnds(a, act, b); }
    else if RequestStep(a, act, b) { RequestEnds(a, act, b); }
    else { GiveEnds(a, act, b); }
  }

  lemma ReadEnds(a: Pipe, act: Act, b: Pipe)
    requires ReadStep(a, act, b)
    ensures EndsPart(a, act, b)
  {
    hide IsFirst, SetJobState, UpdateConn, DeleteComm;
  }

  lemma RequestEnds(a: Pipe, act: Act, b: Pipe)
    requires RequestStep(a, act, b)
    ensures EndsPart(a, act, b)
  {
    hide IsFirst, MarkComm, RequestOf;
  }

  lemma GiveEnds(a: Pipe, act: Act, b: Pipe)
    requires GiveStep(a, act, b)
    ensures EndsPart(a, act, b)
  {
    hide IsFirst, SetJobState, Selected;
  }

  /** A round has all its parts, in this order: statuses, requests, jobs. */
  predicate NextPart(p: ProcessorPc, q: ProcessorPc) {
    && (p.PIdle? ==> q.PRead?)
    && (p.PUnlockRead? ==> q.PSearch?)
    && (p.PUnlockSend? ==> q.PGive?)
    && (p.PUnlockGive? ==> q.PIdle?)
    && (q.PIdle? ==> p.PUnlockGive?)
  }

  lemma RoundIsWhole(a: Pipe, act: Act, b: Pipe)
    requires ProcessorStep(a, act, b)
    ensures NextPart(a.p, b.p)
  {
    hide ReadStep, RequestStep, GiveStep, NextPart;
    if ReadStep(a, act, b) { ReadNext(a, act, b); }
    else if RequestStep(a, act, b) { RequestNext(a, act, b); }
    else { GiveNext(a, act, b); }
  }

  lemma ReadNext(a: Pipe, act: Act, b: Pipe)
    requires ReadStep(a, act, b)
    ensures NextPart(a.p, b.p)
  {
    hide IsFirst, SetJobState, UpdateConn, DeleteComm;
  }

  lemma RequestNext(a: Pipe, act: Act, b: Pipe)
    requires RequestStep(a, act, b)
    ensures NextPart(a.p, b.p)
  {
    hide IsFirst, MarkComm, RequestOf;
  }

  lemma GiveNext(a: Pipe, act: Act, b: Pipe)
    requires GiveStep(a, act, b)
    ensures NextPart(a.p, b.p)
  {
    hide IsFirst, SetJobState, Selected;
  }

  // ---- the sender --------------------------------------------------------------------------

  /** The request, the job or the status in the sender's hands, as it is. */
  datatype InHand = Nothing | Request(msg: CommMsg) | Parcel(dmsg: DataMsg) | Status(status: CommMsg)

  function HandOf(s: SenderPc): InHand {
    match s
    case SUnlockMsg(Some(m)) => Request(m)
    case SAct(m) => Request(m)
    case SUnlockData(found, Some(d)) => Parcel(d)
    case SSend(d) => Parcel(d)
    case SReport(m) => Status(m)
    case _ => Nothing
  }

  /** Whether what is in hand now reports on what was. */
  predicate IsReportOn(h: InHand, k: InHand) {
    match k
    case Status(m) => (h.Request? && IsAnswer(h.msg, m)) || (h.Parcel? && m.MsgStatus? && m.uuid == h.dmsg.uuid)
    case _ => false
  }

  predicate IsAnswer(msg: CommMsg, m: CommMsg) {
    match msg
    case OpenConn(ip, port, comm) => m.ConnStatus? && m.ip == ip && m.comm == comm
    case CloseConn(ip, fd, comm) => m == ConnStatus(-1, ip, comm)
    case _ => false
  }

  /** The sender keeps what it has taken until it has carried it out, makes a report on it, and keeps the report until
      it has put it into a slot, or found none free. */
  lemma NothingForgotten(a: Pipe, act: Act, b: Pipe)
    requires SenderStep(a, act, b) && HandOf(a.s) != Nothing
    requires HandOf(a.s).Request? ==> Down(HandOf(a.s).msg)
    ensures match HandOf(a.s)
            case Status(m) =>
              act.PutStatus?
              && if act.i >= 0 then act.i in b.comms && b.comms[act.i] == m else IsFirst(a.comms.Keys, 0, 2, -1)
            case _ => HandOf(b.s) == HandOf(a.s) || IsReportOn(HandOf(a.s), HandOf(b.s))
  {
    hide TakeStep, ReportStep, SendStep;
    if TakeStep(a, act, b) { KeptByTake(a, act, b); }
    else if ReportStep(a, act, b) { KeptByReport(a, act, b); }
    else { KeptBySend(a, act, b); }
  }

  lemma KeptByTake(a: Pipe, act: Act, b: Pipe)
    requires TakeStep(a, act, b) && (HandOf(a.s).Request? ==> Down(HandOf(a.s).msg))
    ensures !HandOf(a.s).Status? && !HandOf(a.s).Parcel?
    ensures HandOf(a.s).Request? ==>
              HandOf(b.s) == HandOf(a.s) || IsReportOn(HandOf(a.s), HandOf(b.s))
  {
    hide IsFirst;
  }

  lemma KeptByReport(a: Pipe, act: Act, b: Pipe)
    requires ReportStep(a, act, b) && HandOf(a.s) != Nothing
    ensures HandOf(a.s).Status? && act.PutStatus?
    ensures if act.i >= 0 then act.i in b.comms && b.comms[act.i] == HandOf(a.s).status
            else IsFirst(a.comms.Keys, 0, 2, -1)
  {
    if act.PutStatus? && act.i < 0 { NoneFound(a.comms.Keys, 0, 2, act.i); }
    hide IsFirst;
  }

  lemma KeptBySend(a: Pipe, act: Act, b: Pipe)
    requires SendStep(a, act, b)
    ensures !HandOf(a.s).Status? && !HandOf(a.s).Request?
    ensures HandOf(a.s).Parcel? ==>
              HandOf(b.s) == HandOf(a.s) || IsReportOn(HandOf(a.s), HandOf(b.s))
  {
    hide IsFirst;
  }

  /** What is taken out of a slot is in the sender's hands, whole. */
  lemma TakenIsInHand(a: Pipe, act: Act, b: Pipe)
    requires SenderStep(a, act, b)
    ensures act.TakeRequest? && act.i in a.comms ==> HandOf(b.s) == Request(a.comms[act.i]) && act.i !in b.comms
    ensures act.TakeJob? && act.i in a.datas ==> HandOf(b.s) == Parcel(a.datas[act.i]) && act.i !in b.datas
  {
    hide IsFirst;
  }

  /** After a request or a report the sender looks for a job before it sleeps, and after a job it sleeps. */
  lemma LooksForJobs(a: Pipe, act: Act, b: Pipe)
    requires SenderStep(a, act, b) && b.s.SIdle?
    ensures || (act == UnlockJob && a.s.data.None?)
            || (act == UnlockPut && a.s.after.MsgStatus?)
  {
    hide IsFirst;
  }
}
