/** Proxy.java: four proxies stand in front of a `RealSubject` behind the `ISubject`
    interface. Each `action` routes the call to the real subject and prints lines of its
    own around it; the proxies differ only in when they create, check or log. */
module Proxy {
  import opened JavaLang

  const RealSubjectLine := "RealSubject -> 원본 객체 call"
  const NormalProxyLine := "NormalProxy -> 프록시 객체 call"
  const VirtualProxyLine := "VirtualProxy -> 프록시 객체 call"
  const LoggingStartLine := "Logging Start"
  const LoggingProxyLine := "LoggingProxy -> 프록시 객체 call"
  const LoggingEndLine := "Logging End"

  /** The implementations of `ISubject`; a protection proxy is told apart by its `access` flag. */
  datatype Subject = Real | Normal | Virtual | Protection(access: bool) | Logging

  /** The lines one `action` call prints, in order. */
  function Events(s: Subject): seq<string>
  {
    match s
    case Real => [RealSubjectLine]
    case Normal => [RealSubjectLine, NormalProxyLine]
    case Virtual => [RealSubjectLine, VirtualProxyLine]
    // The protection proxy prints the virtual proxy's message (Proxy.java:127).
    case Protection(access) => if access then [RealSubjectLine, VirtualProxyLine] else []
    case Logging => [LoggingStartLine, RealSubjectLine, LoggingProxyLine, LoggingEndLine]
  }

  /** Whether `action` reaches the real subject: every subject but a protection proxy
      without access. */
  predicate Delegates(s: Subject)
  {
    s != Protection(false)
  }

  /** The number of occurrences of `x` in `s`. */
  function Count(s: seq<string>, x: string): nat
    decreases |s|
  {
    if s == [] then 0 else Count(s[..|s| - 1], x) + (if s[|s| - 1] == x then 1 else 0)
  }

  lemma {:induction false} CountAppend(a: seq<string>, b: seq<string>, x: string)
    ensures Count(a + b, x) == Count(a, x) + Count(b, x)
    decreases |b|
  {
    if b != [] {
      assert (a + b)[..|a + b| - 1] == a + b[..|b| - 1];
      CountAppend(a, b[..|b| - 1], x);
    } else {
      assert a + b == a;
    }
  }

  lemma CountPair(a: string, b: string, x: string)
    ensures Count([a, b], x) == (if a == x then 1 else 0) + (if b == x then 1 else 0)
  {
    var s := [a, b];
    assert s[..1] == [a] && s[..1][..0] == [];
    assert Count(s[..1], x) == Count([], x) + (if a == x then 1 else 0);
  }

  /** A proxy only routes the call: the real subject's line appears unaltered, exactly
      once when the call is delegated and not at all when it is refused. */
  lemma DelegatesOnce(s: Subject)
    ensures Count(Events(s), RealSubjectLine) == (if Delegates(s) then 1 else 0)
  {
    assert NormalProxyLine[0] != RealSubjectLine[0];
    assert VirtualProxyLine[0] != RealSubjectLine[0];
    assert LoggingProxyLine[0] != RealSubjectLine[0];
    assert LoggingStartLine[0] != RealSubjectLine[0];
    assert LoggingEndLine[0] != RealSubjectLine[0];
    match s
    case Real =>
      assert [RealSubjectLine][..0] == [];
    case Normal =>
      CountPair(RealSubjectLine, NormalProxyLine, RealSubjectLine);
    case Virtual =>
      CountPair(RealSubjectLine, VirtualProxyLine, RealSubjectLine);
    case Protection(access) =>
      CountPair(RealSubjectLine, VirtualProxyLine, RealSubjectLine);
    case Logging =>
      CountPair(LoggingStartLine, RealSubjectLine, RealSubjectLine);
      CountPair(LoggingProxyLine, LoggingEndLine, RealSubjectLine);
      CountAppend([LoggingStartLine, RealSubjectLine], [LoggingProxyLine, LoggingEndLine], RealSubjectLine);
      assert Events(s) == [LoggingStartLine, RealSubjectLine] + [LoggingProxyLine, LoggingEndLine];
  }

  /** The line a proxy prints as its own, if it prints one. */
  function OwnLine(s: Subject): Option<string>
  {
    match s
    case Real => None
    case Normal => Some(NormalProxyLine)
    case Virtual => Some(VirtualProxyLine)
    case Protection(access) => if access then Some(VirtualProxyLine) else None
    case Logging => Some(LoggingProxyLine)
  }

  /** A proxy that delegates prints its own line after the real subject has acted, and
      that line differs from the real subject's. */
  lemma DelegationComesFirst(s: Subject)
    requires s != Real
    ensures Delegates(s) <==> OwnLine(s).Some?
    ensures OwnLine(s).Some? ==> exists i, j | 0 <= i < j < |Events(s)| ::
      Events(s)[i] == RealSubjectLine && Events(s)[j] == OwnLine(s).value
                                      && OwnLine(s).value != RealSubjectLine
  {
    var e := Events(s);
    match s
    case Logging =>
      assert e[1] == RealSubjectLine && e[2] == LoggingProxyLine;
      assert LoggingProxyLine[0] != RealSubjectLine[0];
    case Normal =>
      assert e[0] == RealSubjectLine && e[1] == NormalProxyLine;
      assert NormalProxyLine[0] != RealSubjectLine[0];
    case Virtual =>
      assert e[0] == RealSubjectLine && e[1] == VirtualProxyLine;
      assert VirtualProxyLine[0] != RealSubjectLine[0];
    case Protection(access) =>
      if access {
        assert e[0] == RealSubjectLine && e[1] == VirtualProxyLine;
        assert VirtualProxyLine[0] != RealSubjectLine[0];
      }
  }

  /** The logging proxy brackets the whole call between its start and end lines. */
  lemma LoggingBrackets()
    ensures Events(Logging)[0] == LoggingStartLine
    ensures Events(Logging)[|Events(Logging)| - 1] == LoggingEndLine
    ensures RealSubjectLine !in {LoggingStartLine, LoggingEndLine}
  {
    assert RealSubjectLine[0] != LoggingStartLine[0];
    assert RealSubjectLine[0] != LoggingEndLine[0];
  }

  /** `RealSubject`: the object the proxies stand in for. */
  class RealSubject {
    constructor ()
    {
    }

    method Action(out: Console)
      modifies out
      ensures out.lines == old(out.lines) + Events(Real)
    {
      out.PrintLn(RealSubjectLine);
    }
  }

  /** `NormalProxy`: delegate, then print its own line. */
  class NormalProxy {
    const realSubject: RealSubject

    constructor (realSubject: RealSubject)
      ensures this.realSubject == realSubject
    {
      this.realSubject := realSubject;
    }

    method Action(out: Console)
      modifies out
      ensures out.lines == old(out.lines) + Events(Normal)
    {
      realSubject.Action(out);
      out.PrintLn(NormalProxyLine);
    }
  }

  /** `VirtualProxy`: starts without a real subject and creates one on the first call.
      The ghost `created` counts the real subjects this proxy has made. */
  class VirtualProxy {
    var realSubject: RealSubject?
    ghost var created: nat

    /** A real subject is present exactly when one has been created, and at most one is. */
    ghost predicate Valid()
      reads this
    {
      created == if realSubject == null then 0 else 1
    }

    constructor ()
      ensures Valid() && realSubject == null && created == 0
    {
      realSubject := null;
      created := 0;
    }

    /** `action`: create the real subject if there is none yet, delegate, then print. */
    method Action(out: Console)
      requires Valid()
      modifies this, out
      ensures Valid() && realSubject != null
      ensures old(realSubject) == null ==> fresh(realSubject)
      ensures old(realSubject) != null ==> realSubject == old(realSubject)
      ensures out.lines == old(out.lines) + Events(Virtual)
    {
      if realSubject == null {
        realSubject := new RealSubject();
        created := created + 1;
      }
      realSubject.Action(out);
      out.PrintLn(VirtualProxyLine);
    }
  }

  /** The output of `n` calls that each print `s`. */
  function Repeat(s: seq<string>, n: nat): seq<string>
  {
    if n == 0 then [] else Repeat(s, n - 1) + s
  }

  /** `n` calls of `action` on one virtual proxy: the first creates the real subject,
      every later one reuses it, and each call delegates and prints. */
  method ActionTimes(p: VirtualProxy, n: nat, out: Console)
    requires p.Valid()
    modifies p, out
    ensures p.Valid()
    ensures n > 0 ==> p.realSubject != null && p.created == 1
    ensures n == 0 || old(p.realSubject) != null ==> p.realSubject == old(p.realSubject)
    ensures n > 0 && old(p.realSubject) == null ==> fresh(p.realSubject)
    ensures out.lines == old(out.lines) + Repeat(Events(Virtual), n)
  {
    var i := 0;
    while i < n
      invariant 0 <= i <= n && p.Valid()
      invariant i > 0 ==> p.realSubject != null
      invariant i == 0 || old(p.realSubject) != null ==> p.realSubject == old(p.realSubject)
      invariant i > 0 && old(p.realSubject) == null ==> fresh(p.realSubject)
      invariant out.lines == old(out.lines) + Repeat(Events(Virtual), i)
    {
      p.Action(out);
      i := i + 1;
    }
  }

  /** However many times a virtual proxy is used, the real subject acts once per call. */
  lemma {:induction false} RepeatedDelegation(n: nat)
    ensures Count(Repeat(Events(Virtual), n), RealSubjectLine) == n
  {
    if n > 0 {
      RepeatedDelegation(n - 1);
      CountAppend(Repeat(Events(Virtual), n - 1), Events(Virtual), RealSubjectLine);
      DelegatesOnce(Virtual);
    }
  }

  /** `ProtectionProxy`: delegate and print only when `access` is granted. */
  class ProtectionProxy {
    var realSubject: RealSubject
    var access: bool

    constructor (realSubject: RealSubject, access: bool)
      ensures this.realSubject == realSubject && this.access == access
    {
      this.realSubject := realSubject;
      this.access := access;
    }

    method Action(out: Console)
      modifies out
      ensures out.lines == old(out.lines) + Events(Protection(access))
    {
      if access {
        realSubject.Action(out);
        out.PrintLn(VirtualProxyLine);
      }
    }
  }

  /** `LoggingProxy`: a start line, the delegated call, its own line, an end line. */
  class LoggingProxy {
    var realSubject: RealSubject

    constructor (realSubject: RealSubject)
      ensures this.realSubject == realSubject
    {
      this.realSubject := realSubject;
    }

    method Action(out: Console)
      modifies out
      ensures out.lines == old(out.lines) + Events(Logging)
    {
      out.PrintLn(LoggingStartLine);
      realSubject.Action(out);
      out.PrintLn(LoggingProxyLine);
      out.PrintLn(LoggingEndLine);
    }
  }

  /** `Proxy.main`: each proxy acts once; the protection proxy is denied access and
      prints nothing. */
  method MainScenario(out: Console)
    modifies out
    ensures out.lines == old(out.lines) + Events(Normal) + Events(Virtual) + Events(Logging)
  {
    var r1 := new RealSubject();
    var normalProxy := new NormalProxy(r1);
    normalProxy.Action(out);
    var virtualProxy := new VirtualProxy();
    virtualProxy.Action(out);
    var r2 := new RealSubject();
    var protectionProxy := new ProtectionProxy(r2, false);
    protectionProxy.Action(out);
    var r3 := new RealSubject();
    var loggingProxy := new LoggingProxy(r3);
    loggingProxy.Action(out);
  }
}
