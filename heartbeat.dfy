/** What the handler tells the host: heartbeats (a readiness state, a code and
    a message) and status reports (a message and "success" or "error"). */
module Heartbeat {
  import opened Wrappers

  /** AzureHeartBeat::NOTREADY and AzureHeartBeat::READY. */
  datatype State = NotReady | Ready

  datatype Report = Report(state: State, code: int, message: string)

  datatype StatusReport = StatusReport(message: string, status: string)

  const EnablingMessage := "Enabling chef-service..."
  const EnabledMessage := "chef-service is enabled."
  const EnableFailedMessage := "chef-service enable failed."
  const ClientErrorPrefix := " Chef client run failed with error- "

  /** The heartbeat sent before anything is enabled. */
  function FirstReport(): (r: Report)
    ensures r.state == NotReady && r.code == 0
  {
    Report(NotReady, 0, EnablingMessage)
  }

  /** The captured client-run error, empty when there is none. */
  function ErrorText(clientError: Option<string>): string {
    clientError.GetOr("")
  }

  /** The message after the enable step: its outcome, then the client-run error
      when a non-empty one was captured. */
  function FinalMessage(exitCode: int, clientError: Option<string>): (m: string)
    ensures var head := if exitCode == 0 then EnabledMessage else EnableFailedMessage;
            && |m| >= |head| && m[..|head|] == head
            && (ErrorText(clientError) == "" ==> m == head)
            && (ErrorText(clientError) != "" ==> m[|head|..] == ClientErrorPrefix + ErrorText(clientError))
  {
    var head := if exitCode == 0 then EnabledMessage else EnableFailedMessage;
    if ErrorText(clientError) == "" then head
    else
      var m := head + (ClientErrorPrefix + ErrorText(clientError));
      assert m[..|head|] == head && m[|head|..] == ClientErrorPrefix + ErrorText(clientError);
      m
  }

  /** The heartbeat sent at the end of run: READY exactly when the exit code is
      0, always with code 0; the client-run error changes only the message. */
  function FinalReport(exitCode: int, clientError: Option<string>): (r: Report)
    ensures r.code == 0
    ensures r.state == Ready <==> exitCode == 0
    ensures r.message == FinalMessage(exitCode, clientError)
  {
    Report(if exitCode == 0 then Ready else NotReady, 0, FinalMessage(exitCode, clientError))
  }

  /** The final message determines both the outcome and the client-run error
      text: the host can read back what happened from the message alone. */
  lemma FinalMessageInjective(c1: int, e1: Option<string>, c2: int, e2: Option<string>)
    requires FinalMessage(c1, e1) == FinalMessage(c2, e2)
    ensures (c1 == 0 <==> c2 == 0) && ErrorText(e1) == ErrorText(e2)
  {
    var m1, m2 := FinalMessage(c1, e1), FinalMessage(c2, e2);
    var b1 := if c1 == 0 then EnabledMessage else EnableFailedMessage;
    var b2 := if c2 == 0 then EnabledMessage else EnableFailedMessage;
    assert m1[13] == b1[13] && m2[13] == b2[13];
    assert EnabledMessage[13] == 'i' && EnableFailedMessage[13] == 'e';
    assert b1 == b2;
    var t1, t2 := ErrorText(e1), ErrorText(e2);
    var n := |b1| + |ClientErrorPrefix|;
    if t1 != "" && t2 != "" {
      assert m1[n..] == t1 && m2[n..] == t2;
    }
  }

  /** The two steps of the chef service whose outcome is reported. */
  datatype ServiceStep = InstallService | EnableService

  /** The message when `step` succeeded, and the one when it failed. */
  function DoneMessage(step: ServiceStep): string {
    if step == InstallService then "chef-service installed" else "chef-service enabled"
  }

  function FailedMessage(step: ServiceStep): string {
    if step == InstallService then "chef-service install failed - " else "chef-service enable failed - "
  }

  /** The status reported after `step` answered exit status `code`: "success"
      exactly when the status is 0, with the step's own message. */
  function ServiceStatus(step: ServiceStep, code: int): (r: StatusReport)
    ensures r.status == "success" <==> code == 0
    ensures r.status == "success" || r.status == "error"
    ensures r.message == if code == 0 then DoneMessage(step) else FailedMessage(step)
  {
    if code == 0 then StatusReport(DoneMessage(step), "success")
    else StatusReport(FailedMessage(step), "error")
  }

  /** The four service statuses are distinct: a report names its step, and
      within a step it tells success from failure. */
  lemma ServiceStatusesDistinct(step1: ServiceStep, c1: int, step2: ServiceStep, c2: int)
    ensures ServiceStatus(step1, c1) == ServiceStatus(step2, c2) <==> step1 == step2 && (c1 == 0 <==> c2 == 0)
  {
    var a := ServiceStatus(step1, c1).message;
    var b := ServiceStatus(step2, c2).message;
    if step1 != step2 {
      assert a[13] != b[13];
    }
  }
}
