/**
 * Descriptors, open files and epoll registrations around one environment thread, as a transition
 * system: the welcome thread accepts, duplicates and hands over client sockets, the environment
 * thread registers and closes them, and everybody else opens and closes descriptors as well, so
 * numbers are reused at any time.
 */
module Descriptors {
  import opened Runs

  datatype Owner = WelcomeClient | Passed | InSet | Special | Foreign

  /** An open descriptor: the open file it refers to, its owner, and a name for it that is never reused. */
  datatype Entry = Entry(file: nat, owner: Owner, id: nat)

  /** An epoll registration is for a number and an open file; it lives as long as the open file. */
  datatype Registration = Registration(fd: int, file: nat)

  /** An event of the batch in hand; the thread sees the number, the file is history. */
  datatype Event = Add | Drop | Client(fd: int, file: nat)

  /** The welcome thread with the client descriptor it holds. */
  datatype WelcomePc =
    | Idle
    | Accepted(client: int)
    | Duplicated(client: int, copy: int)
    | Handed(client: int)            // copy in the channel, event not yet written
    | Waiting(client: int)           // in recv, and then until handle_open_environment returns

  /** The kernel's table of open descriptors and the history of their closing. */
  datatype Table = Table(open: map<int, Entry>, closed: seq<nat>, nextFile: nat, nextId: nat)

  datatype State = State(
    t: Table,
    sockets: set<int>,               // the SocketSet
    regs: set<Registration>,
    addFd: int,
    dropFd: int,
    welcome: WelcomePc,
    pending: seq<int>,               // the add_listener channel
    signalled: bool,                 // the add_listener event
    dropOn: bool,                    // the drop event: the welcome thread has taken this environment out of its map
    batch: seq<Event>,
    taking: bool,                    // in add_listener, after reading the event
    looping: bool,
    known: set<nat>,                 // history: open files registered so far
    inserted: set<nat>)              // history: descriptors put into the SocketSet

  /** After the thread's initialization: its two special events are open and registered. */
  function Start(addFd: int, dropFd: int): State {
    State(Table(map[addFd := Entry(0, Special, 0), dropFd := Entry(1, Special, 1)], [], 2, 2), {},
          {Registration(addFd, 0), Registration(dropFd, 1)}, addFd, dropFd,
          Idle, [], false, false, [], false, true, {}, {})
  }

  datatype Step =
    | Accept(fd: int)
    | Refuse                     // no request, or no duplicate
    | Duplicate(fd: int)
    | Hand
    | HandFails                  // the receiver is gone
    | HandElsewhere              // the environment asked for is another one
    | Signal
    | DropWrite                  // the environment is dropped: closed, torn down, or its creation has failed
    | Return                     // handle_open_environment returns and drops the client descriptor
    | Wait(batch: seq<Event>)
    | TakeEvent                  // the batch's add_listener event
    | Register
    | RegisterFails
    | AnswerRequest              // the channel is found empty
    | HangUp                     // a client event with EPOLLRDHUP
    | Request                    // a client event without it
    | TakeDrop                   // the batch's drop event ends the loop
    | Leave                      // a failed wait does, too
    | DropEpoll                  // the thread's locals go: first the epoll instance
    | CloseOne(fd: int)          // then the SocketSet, in any order
    | DropPending                // and the receiver with what is still in the channel
    | ForeignOpen(fd: int)
    | ForeignClose(fd: int)

  function OpenFd(t: Table, fd: int, file: nat, owner: Owner): Table {
    t.(open := t.open[fd := Entry(file, owner, t.nextId)], nextId := t.nextId + 1,
       nextFile := if file >= t.nextFile then file + 1 else t.nextFile)
  }

  function CloseFd(t: Table, fd: int): Table
    requires fd in t.open
  {
    t.(open := t.open - {fd}, closed := t.closed + [t.open[fd].id])
  }

  function SetOwner(t: Table, fd: int, owner: Owner): Table
    requires fd in t.open
  {
    t.(open := t.open[fd := t.open[fd].(owner := owner)])
  }

  ghost predicate FileOpen(t: Table, file: nat) {
    exists n :: n in t.open && t.open[n].file == file
  }

  /** The registrations that survive: those whose open file still has a descriptor. */
  ghost function Surviving(regs: set<Registration>, t: Table): set<Registration> {
    set r | r in regs && FileOpen(t, r.file)
  }

  /** close(fd), with its effect on the epoll instance. */
  ghost function Close(s: State, fd: int): State
    requires fd in s.t.open
  {
    var t := CloseFd(s.t, fd);
    s.(t := t, regs := Surviving(s.regs, t))
  }

  ghost predicate ValidBatch(s: State, batch: seq<Event>) {
    && (Add in batch <==> s.signalled) && (Drop in batch <==> s.dropOn)
    && (forall i :: 0 <= i < |batch| && batch[i].Client? ==>
          Registration(batch[i].fd, batch[i].file) in s.regs && batch[i].fd != s.addFd && batch[i].fd != s.dropFd)
    && (forall i, j :: 0 <= i < j < |batch| ==> batch[i] != batch[j])
  }

  predicate HandlesClient(s: State) {
    s.looping && !s.taking && s.batch != [] && s.batch[0].Client?
  }

  /** Whether `insert_socket` has its answer, or finds the thread gone. */
  predicate Answered(s: State) {
    s.welcome.Waiting? && (!s.looping || (s.pending == [] && !s.taking))
  }

  /** The welcome thread has asked this thread to go and waits for its end. */
  predicate Joining(s: State) {
    s.looping && s.dropOn
  }

  function FileOf(s: State, fd: int): nat {
    if fd in s.t.open then s.t.open[fd].file else 0
  }

  ghost predicate Enabled(s: State, step: Step) {
    match step
    case Accept(fd) => s.welcome.Idle? && !Joining(s) && fd !in s.t.open
    case Refuse => s.welcome.Accepted? && s.welcome.client in s.t.open
    case Duplicate(fd) => s.welcome.Accepted? && s.welcome.client in s.t.open && fd !in s.t.open
    case Hand => s.welcome.Duplicated?
    case HandFails => s.welcome.Duplicated? && s.welcome.copy in s.t.open && !s.looping
    case HandElsewhere => s.welcome.Duplicated? && s.welcome.copy in s.t.open
    case Signal => s.welcome.Handed?
    case DropWrite => s.welcome.Idle? || (Answered(s) && FileOf(s, s.welcome.client) !in s.known)
    case Return => Answered(s) && !Joining(s) && s.welcome.client in s.t.open
    case Wait(batch) => s.looping && s.batch == [] && !s.taking && ValidBatch(s, batch)
    case TakeEvent => s.looping && !s.taking && s.batch != [] && s.batch[0].Add?
    case Register => s.taking && s.pending != [] && s.pending[0] in s.t.open
    case RegisterFails => s.taking && s.pending != [] && s.pending[0] in s.t.open
    case AnswerRequest => s.taking && s.pending == []
    case HangUp => HandlesClient(s) && (s.batch[0].fd in s.sockets ==> s.batch[0].fd in s.t.open)
    case Request => HandlesClient(s) && s.batch[0].fd in s.sockets
    case TakeDrop => s.looping && !s.taking && s.batch != [] && s.batch[0].Drop?
    case Leave => s.looping && !s.taking && s.batch == []
    case DropEpoll => !s.looping
    case CloseOne(fd) => !s.looping && fd in s.sockets && fd in s.t.open
    case DropPending => !s.looping && s.pending != [] && s.pending[0] in s.t.open
    case ForeignOpen(fd) => fd !in s.t.open
    case ForeignClose(fd) => fd in s.t.open && s.t.open[fd].owner.Foreign?
  }

  /** The handler of a client's hang-up: `sockets.remove`, and the loop ends if no socket is left. */
  ghost function HangUpStep(s: State): State
    requires Enabled(s, HangUp)
  {
    var fd := s.batch[0].fd;
    var removed := if fd in s.sockets then Close(s, fd).(sockets := s.sockets - {fd}) else s;
    removed.(batch := s.batch[1..], looping := removed.sockets != {})
  }

  ghost function RegisterStep(s: State): State
    requires Enabled(s, Register)
  {
    var fd := s.pending[0];
    var entry := s.t.open[fd];
    s.(t := SetOwner(s.t, fd, InSet), sockets := s.sockets + {fd}, regs := s.regs + {Registration(fd, entry.file)},
       pending := s.pending[1..], known := s.known + {entry.file}, inserted := s.inserted + {entry.id})
  }

  ghost function Next(s: State, step: Step): State
    requires Enabled(s, step)
  {
    match step
    case Accept(fd) => s.(t := OpenFd(s.t, fd, s.t.nextFile, WelcomeClient), welcome := Accepted(fd))
    case Refuse => Close(s, s.welcome.client).(welcome := Idle)
    case Duplicate(fd) =>
      s.(t := OpenFd(s.t, fd, s.t.open[s.welcome.client].file, Passed), welcome := Duplicated(s.welcome.client, fd))
    case Hand => s.(pending := s.pending + [s.welcome.copy], welcome := Handed(s.welcome.client))
    case HandFails => Close(s, s.welcome.copy).(welcome := Waiting(s.welcome.client))
    case HandElsewhere => s.(t := SetOwner(s.t, s.welcome.copy, Foreign), welcome := Waiting(s.welcome.client))
    case Signal => s.(signalled := true, welcome := Waiting(s.welcome.client))
    case DropWrite => s.(dropOn := true)
    case Return => Close(s, s.welcome.client).(welcome := Idle)
    case Wait(batch) => s.(batch := batch)
    case TakeEvent => s.(batch := s.batch[1..], signalled := false, taking := true)
    case Register => RegisterStep(s)
    case RegisterFails => Close(s, s.pending[0]).(pending := s.pending[1..], taking := false)
    case AnswerRequest => s.(taking := false)
    case HangUp => HangUpStep(s)
    case Request => s.(batch := s.batch[1..])
    case TakeDrop => s.(dropOn := false, looping := false)
    case Leave => s.(looping := false)
    case DropEpoll => s.(regs := {}, batch := [])
    case CloseOne(fd) => Close(s, fd).(sockets := s.sockets - {fd})
    case DropPending => Close(s, s.pending[0]).(pending := s.pending[1..])
    case ForeignOpen(fd) => s.(t := OpenFd(s.t, fd, s.t.nextFile, Foreign))
    case ForeignClose(fd) => Close(s, fd)
  }

  ghost predicate Successor(s: State, s': State) {
    exists step :: Enabled(s, step) && s' == Next(s, step)
  }

  ghost predicate IsRun(run: seq<State>) {
    && run != []
    && run[0].addFd != run[0].dropFd && run[0] == Start(run[0].addFd, run[0].dropFd)
    && Chained(run, Successor)
  }
}
