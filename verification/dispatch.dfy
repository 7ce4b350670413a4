/**
 * processMessage: the single entry point both ingress paths call. It
 * resolves the message, looks the repository up, builds the work-order for
 * the executor and appends it to the chosen target queue.
 */
module Dispatch {
  import opened Wrappers
  import opened Config
  import opened Directives
  import opened Queues

  /** The branch every work-order names; it does not come from the input. */
  const MainBranch: string := "refs/heads/main"

  /** The work-order appended to the target queue (PoppitNotification). */
  datatype Notification = Notification(
    repo: string,
    branch: string,
    kind: string,
    dir: string,
    commands: seq<string>)

  /** The errors processMessage returns, in the order it can meet them. */
  datatype Error =
    | ParseFailed(cause: string)
    | NoActionField
    | UnknownRepository(repo: string)
    | PushFailed(queue: string, cause: string)

  const ParsePrefix: string := "failed to parse message: "
  const NoConfigPrefix: string := "no configuration found for repository: "
  const PushPrefix: string := "failed to push notification to "

  /** The error's text as processMessage formats it: a fixed lead-in per kind
      of error, followed by the cause, the repository or the queue. */
  function ErrorText(e: Error): (r: string)
    ensures e.ParseFailed? ==> ParsePrefix <= r && r[|ParsePrefix|..] == e.cause
    ensures e.NoActionField? ==> r == "message must contain either 'up', 'down', or 'restart' field"
    ensures e.UnknownRepository? ==> NoConfigPrefix <= r && r[|NoConfigPrefix|..] == e.repo
    ensures e.PushFailed? ==> PushPrefix <= r && r[|PushPrefix|..] == e.queue + ": " + e.cause
  {
    match e
    case ParseFailed(cause) => ParsePrefix + cause
    case NoActionField => "message must contain either 'up', 'down', or 'restart' field"
    case UnknownRepository(repo) => NoConfigPrefix + repo
    case PushFailed(queue, cause) => PushPrefix + queue + ": " + cause
  }

  /** What is to be written, and where, once every check has passed. */
  datatype WorkOrder = WorkOrder(queue: string, notification: Notification)

  /** The command list of `p` for action `a`, chosen by the action's name. */
  function CommandsFor(p: Project, a: Action): (r: seq<string>)
    ensures ActionName(a) == "up" ==> r == p.upCommands
    ensures ActionName(a) == "down" ==> r == p.downCommands
    ensures ActionName(a) == "restart" ==> r == p.restartCommands
  {
    match a
    case Up => p.upCommands
    case Down => p.downCommands
    case Restart => p.restartCommands
  }

  /** The project's own queue when it names one, otherwise the default. */
  function TargetQueue(p: Project, defaultQueue: string): (r: string)
    ensures p.targetQueue != "" ==> r == p.targetQueue
    ensures p.targetQueue == "" ==> r == defaultQueue
    ensures r == "" <==> p.targetQueue == "" && defaultQueue == ""
  {
    if p.targetQueue != "" then p.targetQueue else defaultQueue
  }

  /** The decisions of processMessage before its single write: parse, resolve,
      look up, then choose commands, target queue and work-order fields. */
  function Plan(reg: Registry, defaultQueue: string, d: Decoded): (r: Result<WorkOrder, Error>)
    ensures d.Malformed? ==> r == Failure(ParseFailed(d.cause))
    ensures d.Decoded? && Resolve(d.msg).None? ==> r == Failure(NoActionField)
    ensures d.Decoded? && Resolve(d.msg).Some? && Resolve(d.msg).value.repo !in reg ==>
              r == Failure(UnknownRepository(Resolve(d.msg).value.repo))
    ensures r.Success? <==> d.Decoded? && Resolve(d.msg).Some? && Resolve(d.msg).value.repo in reg
    ensures r.Success? ==>
              var dir := Resolve(d.msg).value;
              var p := reg[dir.repo];
              var n := r.value.notification;
              && r.value.queue == TargetQueue(p, defaultQueue)
              && n.repo == dir.repo
              && n.branch == "refs/heads/main"
              && n.kind == "service-" + ActionName(dir.action)
              && n.dir == p.dir
              && (dir.action == Up ==> n.commands == p.upCommands)
              && (dir.action == Down ==> n.commands == p.downCommands)
              && (dir.action == Restart ==> n.commands == p.restartCommands)
  {
    match d
    case Malformed(cause) => Failure(ParseFailed(cause))
    case Decoded(msg) =>
      match Resolve(msg)
      case None => Failure(NoActionField)
      case Some(Directive(repo, action)) =>
        if repo !in reg then Failure(UnknownRepository(repo))
        else
          var project := reg[repo];
          var n := Notification(repo, MainBranch, "service-" + ActionName(action), project.dir,
                                CommandsFor(project, action));
          Success(WorkOrder(TargetQueue(project, defaultQueue), n))
  }

  /** The error processMessage returns, or None on success. `fault` is the
      store's answer to the RPush, consulted only when the write is made. */
  function Outcome(fault: Option<string>, reg: Registry, defaultQueue: string, d: Decoded): (r: Option<Error>)
    ensures r.None? <==> Plan(reg, defaultQueue, d).Success? && fault.None?
    ensures Plan(reg, defaultQueue, d).Failure? ==> r == Some(Plan(reg, defaultQueue, d).error)
    ensures Plan(reg, defaultQueue, d).Success? && fault.Some? ==>
              r == Some(PushFailed(Plan(reg, defaultQueue, d).value.queue, fault.value))
    ensures r.Some? && r.value.PushFailed? ==> fault == Some(r.value.cause)
  {
    match Plan(reg, defaultQueue, d)
    case Failure(e) => Some(e)
    case Success(w) => if fault.Some? then Some(PushFailed(w.queue, fault.value)) else None
  }

  /** The work-order processMessage writes: the planned one when every check
      and the write succeed, None otherwise. */
  function Written(fault: Option<string>, reg: Registry, defaultQueue: string, d: Decoded): Option<WorkOrder>
  {
    if Outcome(fault, reg, defaultQueue, d).None? then Some(Plan(reg, defaultQueue, d).value) else None
  }

  /** The lists after performing one write, or none. */
  function Perform(lists: Lists<Notification>, write: Option<WorkOrder>): Lists<Notification>
  {
    match write
    case None => lists
    case Some(w) => Append(lists, w.queue, w.notification)
  }

  /** The store's lists after processMessage: on success exactly one work-order
      at the tail of exactly the target queue; on any error, nothing changed. */
  function Delivered(lists: Lists<Notification>, fault: Option<string>, reg: Registry,
                     defaultQueue: string, d: Decoded): (r: Lists<Notification>)
    ensures Outcome(fault, reg, defaultQueue, d).Some? ==> r == lists
    ensures Outcome(fault, reg, defaultQueue, d).None? ==>
              var w := Plan(reg, defaultQueue, d).value;
              && Contents(r, w.queue) == Contents(lists, w.queue) + [w.notification]
              && (forall q :: q != w.queue ==> Contents(r, q) == Contents(lists, q))
              && r.Keys == lists.Keys + {w.queue}
  {
    Perform(lists, Written(fault, reg, defaultQueue, d))
  }

  /** processMessage against the store: the store's one RPush happens only
      once every check has passed. */
  method ProcessMessage(store: Store<Notification>, reg: Registry, defaultQueue: string, d: Decoded,
                        fault: Option<string>)
    returns (err: Option<Error>)
    modifies store
    ensures err == Outcome(fault, reg, defaultQueue, d)
    ensures store.lists == Delivered(old(store.lists), fault, reg, defaultQueue, d)
  {
    var plan := Plan(reg, defaultQueue, d);
    if plan.Failure? {
      return Some(plan.error);
    }
    var w := plan.value;
    var pushErr := store.RPush(w.queue, w.notification, fault);
    if pushErr.Some? {
      return Some(PushFailed(w.queue, pushErr.value));
    }
    return None;
  }

  /** The work-order is a function of repository, action, directory and the
      chosen command list only: the other command lists and the queue
      override do not enter it. */
  lemma NotificationDependsOnInputsOnly(reg1: Registry, reg2: Registry, q1: string, q2: string, m: Message)
    requires Resolve(m).Some?
    requires var repo := Resolve(m).value.repo;
             repo in reg1 && repo in reg2 && reg1[repo].dir == reg2[repo].dir
             && CommandsFor(reg1[repo], Resolve(m).value.action) == CommandsFor(reg2[repo], Resolve(m).value.action)
    ensures Plan(reg1, q1, Decoded(m)).value.notification == Plan(reg2, q2, Decoded(m)).value.notification
  {
  }

  /** A restart for a project with no restart commands still goes through,
      carrying an empty command list. */
  lemma RestartWithoutCommands(reg: Registry, defaultQueue: string, repo: string)
    requires repo != "" && repo in reg && reg[repo].restartCommands == []
    ensures var w := Plan(reg, defaultQueue, Decoded(Message("", "", repo)));
            w.Success? && w.value.notification.commands == [] && w.value.notification.kind == "service-restart"
  {
  }
}
