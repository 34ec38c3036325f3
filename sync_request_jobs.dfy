/** `GroupSyncRequestJob`, `ContactSyncRequestJob` and
    `BlockedSyncRequestJob`: three jobs that differ only in the request type
    they send, modelled as one job over `RequestType`. Each asks the account's
    other devices to send a category of state again; a lost request is not
    retried. */
module SyncRequestJobs {
  import opened Common
  import opened LocalState

  /** The request types these three jobs send (the configuration request
      belongs to a job that is not part of this model). */
  type ShownRequestType = t: RequestType | !t.Configuration? witness Groups

  /** A sync request job: what it asks for and the parameters it was built
      with. */
  datatype SyncRequestJob = SyncRequestJob(requestType: ShownRequestType, parameters: JobParameters)

  /** The constructors: every variant requires the network (the group job
      through the older `withNetworkRequirement`); none sets an attempt
      bound. */
  function NewSyncRequestJob(t: ShownRequestType): (job: SyncRequestJob)
    ensures job.requestType == t
    ensures job.parameters.constraints == {Network}
    ensures job.parameters.maxAttempts.None?
  {
    SyncRequestJob(t, JobParameters({Network}, None))
  }

  /** `getFactoryKey`. The group job is written against the older job API
      and has no factory key. */
  function FactoryKey(job: SyncRequestJob): (key: Option<string>)
    ensures job.requestType == Contacts ==> key == Some("ContactSyncRequestJob")
    ensures job.requestType == Blocked ==> key == Some("BlockedSyncRequestJob")
    ensures job.requestType == Groups ==> key == None
  {
    match job.requestType
    case Contacts => Some("ContactSyncRequestJob")
    case Blocked => Some("BlockedSyncRequestJob")
    case Groups => None
  }

  /** `serialize`: every variant persists nothing and returns null. */
  function Serialize<D>(job: SyncRequestJob): (d: Option<D>)
    ensures d.None?
  {
    None
  }

  /** `Factory.create` (the contacts and blocked jobs have one): it ignores
      the parameters and the data it is given and builds a new job. */
  function Create<D>(t: ShownRequestType, parameters: JobParameters, data: D): (job: SyncRequestJob)
    requires t != Groups
    ensures job == NewSyncRequestJob(t)
  {
    NewSyncRequestJob(t)
  }

  /** Restoring a job yields the same job whatever was stored: neither the
      stored parameters nor the stored data matter. */
  lemma CreateIgnoresItsInput<D>(t: ShownRequestType, p1: JobParameters, p2: JobParameters, d1: D, d2: D)
    requires t != Groups
    ensures Create(t, p1, d1) == Create(t, p2, d2)
    ensures Create(t, p1, d1).parameters.constraints == {Network}
  {
  }

  /** `onShouldRetry`: no failure is retried. */
  function ShouldRetry(job: SyncRequestJob, e: Exception): (r: bool)
    ensures !r
  {
    false
  }

  /** The message `onRun` builds: a sync request of the job's type. */
  function Request(job: SyncRequestJob): (m: SyncMessage)
    ensures m.RequestSync? && m.requestType == job.requestType
  {
    RequestSync(job.requestType)
  }

  /** `onRun`: one send of the request with no target. The send's outcome
      is not an input: anything it throws is caught and logged, so the run
      completes normally whatever happens and touches nothing else. */
  method OnRun(job: SyncRequestJob, dev: Device) returns (thrown: Option<Exception>)
    modifies dev`log
    ensures dev.log == old(dev.log) + [Send(RequestSync(job.requestType), None)]
    ensures thrown.None?
  {
    dev.Emit(Send(Request(job), None));
    thrown := None;
  }

  /** `onAdded`, `onCanceled` and `initialize` have empty bodies: they
      change no state. */
  method OnAdded(job: SyncRequestJob, dev: Device)
    ensures unchanged(dev)
  {
  }

  method OnCanceled(job: SyncRequestJob, dev: Device)
    ensures unchanged(dev)
  {
  }

  method Initialize<D>(job: SyncRequestJob, data: D, dev: Device)
    ensures unchanged(dev)
  {
  }
}
