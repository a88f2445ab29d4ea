/** A run in which the epoll instance has one registration more than the thread counts on. */
module DescriptorWindow {
  import opened Descriptors
  import opened DescriptorTheorems
  import opened Runs

  lemma Extend(run: seq<State>, step: Step) returns (longer: seq<State>)
    requires IsRun(run) && Enabled(Last(run), step)
    ensures IsRun(longer) && Last(longer) == Next(Last(run), step)
  {
    longer := run + [Next(Last(run), step)];
    assert Successor(Last(run), Last(longer));
    ChainExtends(run, Last(longer), Successor);
  }

  /** Nothing is under way between the two threads. */
  predicate Quiet(s: State) {
    s.looping && !s.taking && !s.signalled && !s.dropOn && s.pending == [] && s.batch == []
  }

  /** A client connects as descriptor `c`, and its copy `m` is handed over and signalled. */
  lemma HandOver(run: seq<State>, c: int, m: int) returns (longer: seq<State>)
    requires IsRun(run) && Quiet(Last(run)) && Last(run).welcome.Idle?
    requires c !in Last(run).t.open && m !in Last(run).t.open && c != m
    ensures IsRun(longer)
    ensures var s, s' := Last(run), Last(longer);
      && s' == s.(t := s'.t, welcome := Waiting(c), pending := [m], signalled := true)
      && s'.t.open.Keys == s.t.open.Keys + {c, m}
      && (forall n :: n in s.t.open ==> s'.t.open[n] == s.t.open[n])
      && s'.t.open[c].file == s'.t.open[m].file == s.t.nextFile && s'.t.nextFile == s.t.nextFile + 1
  {
    var r1 := Extend(run, Accept(c));
    var r2 := Extend(r1, Duplicate(m));
    var r3 := Extend(r2, Hand);
    longer := Extend(r3, Signal);
    assert Last(longer).pending == [m];
  }

  /** The environment thread wakes up, registers the socket and answers. */
  lemma TakeIn(run: seq<State>, m: int) returns (longer: seq<State>)
    requires IsRun(run) && Last(run).looping && !Last(run).taking && Last(run).signalled && !Last(run).dropOn
    requires Last(run).pending == [m] && Last(run).batch == [] && m in Last(run).t.open
    ensures IsRun(longer)
    ensures var s, s' := Last(run), Last(longer);
      && Quiet(s') && s'.welcome == s.welcome && s'.sockets == s.sockets + {m}
      && s'.known == s.known + {s.t.open[m].file}
      && s'.regs == s.regs + {Registration(m, s.t.open[m].file)}
      && s'.addFd == s.addFd && s'.dropFd == s.dropFd && s'.t.nextFile == s.t.nextFile
      && s'.t.open.Keys == s.t.open.Keys
      && (forall n :: n in s.t.open ==> s'.t.open[n].file == s.t.open[n].file)
  {
    var r1 := Extend(run, Wait([Add]));
    var r2 := Extend(r1, TakeEvent);
    var r3 := Extend(r2, Register);
    longer := Extend(r3, AnswerRequest);
  }

  /** The first client has joined, and the welcome thread is idle again. */
  lemma FirstClient() returns (run: seq<State>)
    ensures IsRun(run) && Quiet(Last(run)) && Last(run).welcome.Idle?
    ensures var s := Last(run);
      s.addFd == 10 && s.dropFd == 11 && s.sockets == {2} && s.t.open.Keys == {2, 10, 11} && s.t.open[2].file == 2 && s.t.nextFile == 3
  {
    run := [Start(10, 11)];
    run := HandOver(run, 1, 2);
    run := TakeIn(run, 2);
    run := Extend(run, Return);
    assert Last(run).t.open.Keys == {2, 10, 11};
  }

  /** The second client's socket is registered, and the welcome thread still holds the client. */
  lemma SecondClient() returns (run: seq<State>)
    ensures IsRun(run) && Quiet(Last(run)) && Last(run).welcome == Waiting(1)
    ensures var s := Last(run);
      && s.sockets == {2, 3} && {1, 2, 3} <= s.t.open.Keys && 3 in s.known
      && s.t.open[1].file == s.t.open[3].file == 3 && s.t.open[2].file == 2
      && Registration(3, 3) in s.regs && s.addFd != 3 && s.dropFd != 3
  {
    run := FirstClient();
    assert 1 !in Last(run).t.open && 3 !in Last(run).t.open;
    run := HandOver(run, 1, 3);
    run := TakeIn(run, 3);
  }

  lemma SecondHangsUp() returns (run: seq<State>)
    ensures IsRun(run) && Last(run).looping && InWindow(Last(run)) && Last(run).sockets == {2}
  {
    run := SecondClient();
    run := Extend(run, Wait([Client(3, 3)]));
    run := Extend(run, HangUp);
    assert Last(run).sockets == {2};
  }

  /**
   * Two clients join; the second hangs up at once, while the welcome thread has not yet dropped its
   * client descriptor. The thread goes on with one socket and four registrations.
   */
  lemma WindowIsReachable() returns (run: seq<State>)
    ensures IsRun(run) && Last(run).looping && InWindow(Last(run))
    ensures Last(run).regs != Expected(Last(run)) && |Last(run).regs| == 4 && |Last(run).sockets| == 1
  {
    run := SecondHangsUp();
    RunKeepsInv(run, |run| - 1);
    RegistrationsAreExact(Last(run));
  }
}
