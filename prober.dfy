/**
 * The probe engine: one probe cycle for one container. A probe declares an
 * exec command, an HTTP GET or a TCP socket check; the engine picks the first
 * one declared, resolves its port and host, asks the protocol backend, and
 * retries only when an attempt reports an error.
 *
 * The protocol backends (command execution, HTTP, TCP) are not modelled: the
 * engine either finishes an attempt by itself (a missing handler, a bad port)
 * or hands a `Request` to the backend, whose answer on attempt `i` is the
 * oracle value `replies[i]`. Decimal parsing of a port string is the partial
 * function `atoi`.
 */
module Prober {
  import opened Wrappers
  import opened GoInt
  import opened Scan

  /** The outcome of one probe, or the verdict reported for a container. */
  datatype ProbeResult = Success | Failure | Unknown

  /** A port given either as a number or as the name of a declared port. */
  datatype IntOrString = Int(intVal: int32) | Str(strVal: string) | Untyped

  datatype ContainerPort = ContainerPort(name: string, containerPort: int32)
  datatype EnvVar = EnvVar(name: string, value: string)
  datatype Container = Container(name: string, ports: seq<ContainerPort>, env: seq<EnvVar>)

  datatype HTTPHeader = HTTPHeader(name: string, value: string)
  datatype ExecAction = ExecAction(command: seq<string>)
  datatype HTTPGetAction = HTTPGetAction(
    scheme: string,
    host: string,
    port: IntOrString,
    path: string,
    httpHeaders: seq<HTTPHeader>)
  datatype TCPSocketAction = TCPSocketAction(host: string, port: IntOrString)

  /** A probe declaration; any of the three handlers may be nil. */
  datatype ProbeSpec = ProbeSpec(
    exec: Option<ExecAction>,
    httpGet: Option<HTTPGetAction>,
    tcpSocket: Option<TCPSocketAction>,
    timeoutSeconds: int32)

  /** The errors the engine itself raises, and the backends' errors. */
  datatype ProbeError =
    | MissingHandler(pod: string, container: string)
    | NoKind
    | InvalidPort(port: int)
    | PortNotFound(name: string)
    | NotANumber(text: string)
    | BackendError(message: string)

  /** What one attempt returns: a result, diagnostic output and an error or nil. */
  datatype Outcome = Outcome(result: ProbeResult, output: string, err: Option<ProbeError>)

  /** A multi-valued HTTP header map. */
  type Header = map<string, seq<string>>

  /** The probe URL; its host part is the pair `host:port`. */
  datatype URL = URL(scheme: string, host: string, port: int, path: string)

  /** What the engine asks of a protocol backend. */
  datatype Request =
    | ExecRequest(container: string, containerID: string, command: seq<string>,
                  env: seq<EnvVar>, timeoutSeconds: int32)
    | HTTPRequest(url: URL, header: Header, timeoutSeconds: int32)
    | TCPRequest(host: string, port: int, timeoutSeconds: int32)

  /** One attempt either invokes a backend or finishes without one. */
  datatype Step = Invoke(request: Request) | Finish(outcome: Outcome)

  /** The number of attempts of one probe cycle. */
  const MaxAttempts: nat := 3

  // ---------------------------------------------------------------------
  // Scheme lower-casing

  function LowerChar(c: char): char
  {
    if 'A' <= c <= 'Z' then (c as int + 32) as char else c
  }

  /** Lower-cases the ASCII letters of `s` and keeps every other character. */
  function ToLower(s: string): (r: string)
    ensures |r| == |s|
    ensures forall i :: 0 <= i < |r| ==> !('A' <= r[i] <= 'Z')
    ensures forall i :: 0 <= i < |s| && !('A' <= s[i] <= 'Z') ==> r[i] == s[i]
    ensures forall i :: 0 <= i < |s| && 'A' <= s[i] <= 'Z' ==> r[i] == (s[i] as int + 32) as char
  {
    seq(|s|, i requires 0 <= i < |s| => LowerChar(s[i]))
  }

  // ---------------------------------------------------------------------
  // Header flattening

  /** The values of the headers named `name`, in list order. */
  function ValuesFor(list: seq<HTTPHeader>, name: string): (vs: seq<string>)
    ensures |vs| <= |list|
  {
    if list == [] then []
    else
      var last := list[|list| - 1];
      ValuesFor(list[..|list| - 1], name) + (if last.name == name then [last.value] else [])
  }

  function HeaderNames(list: seq<HTTPHeader>): set<string>
  {
    set h | h in list :: h.name
  }

  /** The header map a header list denotes: each name to all of its values. */
  function HeaderMap(list: seq<HTTPHeader>): (h: Header)
    ensures h.Keys == HeaderNames(list)
  {
    map n | n in HeaderNames(list) :: ValuesFor(list, n)
  }

  /** A name has values exactly when some header carries it. */
  lemma {:induction false} ValuesForEmptyIff(list: seq<HTTPHeader>, name: string)
    ensures ValuesFor(list, name) == [] <==> name !in HeaderNames(list)
  {
    if list != [] {
      var init := list[..|list| - 1];
      ValuesForEmptyIff(init, name);
      assert list == init + [list[|list| - 1]];
      assert HeaderNames(list) == HeaderNames(init) + {list[|list| - 1].name};
    }
  }

  /** Later headers append to the values of earlier ones; nothing is overwritten. */
  lemma {:induction false} ValuesForAppend(l1: seq<HTTPHeader>, l2: seq<HTTPHeader>, name: string)
    ensures ValuesFor(l1 + l2, name) == ValuesFor(l1, name) + ValuesFor(l2, name)
  {
    if l2 == [] {
      assert l1 + l2 == l1;
    } else {
      var init := l2[..|l2| - 1];
      ValuesForAppend(l1, init, name);
      assert (l1 + l2)[..|l1 + l2| - 1] == l1 + init;
    }
  }

  /** One more header adds its name to the names. */
  lemma HeaderNamesSnoc(list: seq<HTTPHeader>, h: HTTPHeader)
    ensures HeaderNames(list + [h]) == HeaderNames(list) + {h.name}
  {
    assert forall x :: x in list + [h] <==> x in list || x == h;
  }

  /** One more header adds its value at the end of its own name's values only. */
  lemma ValuesForSnoc(list: seq<HTTPHeader>, h: HTTPHeader, n: string)
    ensures ValuesFor(list + [h], n) == ValuesFor(list, n) + (if h.name == n then [h.value] else [])
  {
    var l := list + [h];
    assert l[..|l| - 1] == list;
  }

  /** The value list one more header leaves for a given name. */
  lemma HeaderMapSnocAt(list: seq<HTTPHeader>, h: HTTPHeader, n: string)
    requires n in HeaderNames(list + [h])
    ensures HeaderMap(list + [h])[n] ==
              if n == h.name then (if n in HeaderMap(list) then HeaderMap(list)[n] else []) + [h.value]
              else HeaderMap(list)[n]
  {
    HeaderNamesSnoc(list, h);
    ValuesForSnoc(list, h, n);
    ValuesForEmptyIff(list, n);
  }

  /** One header added to a map: its value goes after the values already under its name. */
  function AddHeader(headers: Header, h: HTTPHeader): Header
  {
    headers[h.name := (if h.name in headers then headers[h.name] else []) + [h.value]]
  }

  /** Adding one header to a list adds its value at the end of its name's values. */
  lemma HeaderMapSnoc(list: seq<HTTPHeader>, h: HTTPHeader)
    ensures HeaderMap(list + [h]) == AddHeader(HeaderMap(list), h)
  {
    HeaderNamesSnoc(list, h);
    var after, expected := HeaderMap(list + [h]), AddHeader(HeaderMap(list), h);
    forall n | n in after.Keys
      ensures after[n] == expected[n]
    {
      HeaderMapSnocAt(list, h, n);
    }
  }

  /** The map of one more prefix element: the previous prefix's map with that header added. */
  lemma HeaderMapExtend(list: seq<HTTPHeader>, i: nat)
    requires i < |list|
    ensures HeaderMap(list[..i + 1]) == AddHeader(HeaderMap(list[..i]), list[i])
  {
    assert list[..i + 1] == list[..i] + [list[i]];
    HeaderMapSnoc(list[..i], list[i]);
  }

  /** Flattens a header list into a header map, appending repeated names. */
  method BuildHeader(list: seq<HTTPHeader>) returns (headers: Header)
    ensures headers == HeaderMap(list)
    ensures headers.Keys == HeaderNames(list)
  {
    headers := map[];
    assert list[..0] == [] && HeaderNames([]) == {};
    for i := 0 to |list|
      invariant headers == HeaderMap(list[..i])
    {
      var h := list[i];
      var existing := if h.name in headers then headers[h.name] else [];
      HeaderMapExtend(list, i);
      headers := headers[h.name := existing + [h.value]];
    }
    assert list[..|list|] == list;
  }

  // ---------------------------------------------------------------------
  // Port resolution

  /** The index of the first declared port named `name`, if any. */
  function FirstPortNamed(ports: seq<ContainerPort>, name: string): (r: Option<nat>)
    ensures r.None? ==> forall j :: 0 <= j < |ports| ==> ports[j].name != name
    ensures r.Some? ==> r.value < |ports| && ports[r.value].name == name &&
                        forall j :: 0 <= j < r.value ==> ports[j].name != name
  {
    FirstWhere(ports, (port: ContainerPort) => port.name == name)
  }

  /** The number of the first declared port named `name`, if any. */
  function NamedPort(ports: seq<ContainerPort>, name: string): Option<int>
  {
    match FirstPortNamed(ports, name)
    case None => None
    case Some(i) => Some(ports[i].containerPort as int)
  }

  /** Looks a port up by name: the first declared port with that name wins. */
  method FindPortByName(container: Container, portName: string) returns (r: Result<int, ProbeError>)
    ensures r.Ok? <==> exists i :: 0 <= i < |container.ports| && container.ports[i].name == portName
    ensures r.Ok? ==> NamedPort(container.ports, portName) == Some(r.value)
    ensures r.Err? ==> r.error == PortNotFound(portName)
  {
    for i := 0 to |container.ports|
      invariant forall j :: 0 <= j < i ==> container.ports[j].name != portName
    {
      if container.ports[i].name == portName {
        assert FirstPortNamed(container.ports, portName) == Some(i);
        return Ok(container.ports[i].containerPort as int);
      }
    }
    return Err(PortNotFound(portName));
  }

  /** A resolved port is usable only strictly between 0 and 65536. */
  function CheckPort(port: int): (r: Result<int, ProbeError>)
    ensures r.Ok? <==> 0 < port < 65536
    ensures r.Ok? ==> r.value == port
    ensures r.Err? ==> r.error == InvalidPort(port)
  {
    if 0 < port < 65536 then Ok(port) else Err(InvalidPort(port))
  }

  /**
   * Resolves a port reference: a number as is; a string as the named port
   * if the container declares one, else as a decimal number; then checks
   * the range.
   */
  function ExtractPort(param: IntOrString, container: Container, atoi: string -> Option<int>): (r: Result<int, ProbeError>)
    ensures r.Ok? ==> 0 < r.value < 65536
    ensures param.Untyped? ==> r == Err(NoKind)
    ensures param.Int? ==> r == CheckPort(param.intVal as int)
    ensures param.Str? && NamedPort(container.ports, param.strVal).Some? ==>
              r == CheckPort(NamedPort(container.ports, param.strVal).value)
    ensures param.Str? && NamedPort(container.ports, param.strVal).None? && atoi(param.strVal).None? ==>
              r == Err(NotANumber(param.strVal))
    ensures param.Str? && NamedPort(container.ports, param.strVal).None? && atoi(param.strVal).Some? ==>
              r == CheckPort(atoi(param.strVal).value)
  {
    match param
    case Int(v) => CheckPort(v as int)
    case Str(s) =>
      (match NamedPort(container.ports, s)
       case Some(p) => CheckPort(p)
       case None =>
         (match atoi(s)
          case None => Err(NotANumber(s))
          case Some(n) => CheckPort(n)))
    case Untyped => Err(NoKind)
  }

  /** A declared port name shadows the same string read as a number. */
  lemma NamedPortShadowsNumber(s: string, container: Container, atoi1: string -> Option<int>, atoi2: string -> Option<int>)
    requires NamedPort(container.ports, s).Some?
    ensures ExtractPort(Str(s), container, atoi1) == ExtractPort(Str(s), container, atoi2)
  {
  }

  // ---------------------------------------------------------------------
  // Dispatch

  /** An unset host falls back to the pod's IP. */
  function HostOrPodIP(host: string, podIP: string): string
  {
    if host == "" then podIP else host
  }

  /** The probe URL: the path as given, with the scheme and `host:port` set on it. */
  function FormatURL(scheme: string, host: string, port: int, path: string): (u: URL)
    ensures u.scheme == scheme && u.host == host && u.port == port && u.path == path
  {
    URL(scheme, host, port, path)
  }

  /**
   * One attempt's dispatch: exec first, then HTTP GET, then TCP socket. A
   * port that does not resolve finishes the attempt with `Unknown` and the
   * error, without a backend; a probe with no handler finishes with a
   * missing-handler error.
   */
  function Dispatch(p: ProbeSpec, pod: string, podIP: string, container: Container,
                    containerID: string, atoi: string -> Option<int>): (s: Step)
    ensures s.Finish? ==> s.outcome.result == Unknown && s.outcome.output == "" && s.outcome.err.Some?
    ensures p.exec.Some? ==>
              s == Invoke(ExecRequest(container.name, containerID, p.exec.value.command, container.env, p.timeoutSeconds))
    ensures p.exec.None? && p.httpGet.Some? ==>
              match ExtractPort(p.httpGet.value.port, container, atoi)
              case Err(e) => s == Finish(Outcome(Unknown, "", Some(e)))
              case Ok(port) =>
                s.Invoke? && s.request.HTTPRequest? &&
                s.request.url == URL(ToLower(p.httpGet.value.scheme), HostOrPodIP(p.httpGet.value.host, podIP),
                                     port, p.httpGet.value.path) &&
                s.request.header == HeaderMap(p.httpGet.value.httpHeaders) &&
                s.request.timeoutSeconds == p.timeoutSeconds
    ensures p.exec.None? && p.httpGet.None? && p.tcpSocket.Some? ==>
              match ExtractPort(p.tcpSocket.value.port, container, atoi)
              case Err(e) => s == Finish(Outcome(Unknown, "", Some(e)))
              case Ok(port) => s == Invoke(TCPRequest(HostOrPodIP(p.tcpSocket.value.host, podIP), port, p.timeoutSeconds))
    ensures p.exec.None? && p.httpGet.None? && p.tcpSocket.None? ==>
              s == Finish(Outcome(Unknown, "", Some(MissingHandler(pod, container.name))))
    ensures s.Invoke? && s.request.HTTPRequest? ==> 0 < s.request.url.port < 65536
    ensures s.Invoke? && s.request.TCPRequest? ==> 0 < s.request.port < 65536
  {
    if p.exec.Some? then
      Invoke(ExecRequest(container.name, containerID, p.exec.value.command, container.env, p.timeoutSeconds))
    else if p.httpGet.Some? then
      var get := p.httpGet.value;
      var scheme := ToLower(get.scheme);
      var host := HostOrPodIP(get.host, podIP);
      match ExtractPort(get.port, container, atoi)
      case Err(e) => Finish(Outcome(Unknown, "", Some(e)))
      case Ok(port) =>
        Invoke(HTTPRequest(FormatURL(scheme, host, port, get.path), HeaderMap(get.httpHeaders), p.timeoutSeconds))
    else if p.tcpSocket.Some? then
      var tcp := p.tcpSocket.value;
      match ExtractPort(tcp.port, container, atoi)
      case Err(e) => Finish(Outcome(Unknown, "", Some(e)))
      case Ok(port) => Invoke(TCPRequest(HostOrPodIP(tcp.host, podIP), port, p.timeoutSeconds))
    else
      Finish(Outcome(Unknown, "", Some(MissingHandler(pod, container.name))))
  }

  /** One attempt: the dispatch's own outcome, or the backend's reply. */
  function RunProbe(p: ProbeSpec, pod: string, podIP: string, container: Container,
                    containerID: string, atoi: string -> Option<int>, reply: Outcome): (o: Outcome)
    ensures Dispatch(p, pod, podIP, container, containerID, atoi).Invoke? ==> o == reply
    ensures Dispatch(p, pod, podIP, container, containerID, atoi).Finish? ==>
              o == Dispatch(p, pod, podIP, container, containerID, atoi).outcome
    ensures o.err.None? ==> o == reply
    ensures o.result != Unknown ==> o == reply
    ensures p.exec.Some? ==> o == reply
    ensures p.exec.None? && p.httpGet.None? && p.tcpSocket.None? ==>
              o == Outcome(Unknown, "", Some(MissingHandler(pod, container.name)))
  {
    match Dispatch(p, pod, podIP, container, containerID, atoi)
    case Invoke(_) => reply
    case Finish(o) => o
  }

  /** The outcome each attempt would have, given the backend's reply on that attempt. */
  function AttemptOutcomes(p: ProbeSpec, pod: string, podIP: string, container: Container,
                           containerID: string, atoi: string -> Option<int>, replies: seq<Outcome>): (outs: seq<Outcome>)
    ensures |outs| == |replies|
  {
    seq(|replies|, i requires 0 <= i < |replies| => RunProbe(p, pod, podIP, container, containerID, atoi, replies[i]))
  }

  // ---------------------------------------------------------------------
  // Retries

  /**
   * The retry rule: attempts run in order until one reports no error; if
   * every attempt errs, the last one is kept. Gives the kept outcome and the
   * number of attempts made.
   */
  function Retry(attempts: seq<Outcome>): (r: (Outcome, nat))
    requires |attempts| > 0
    ensures 1 <= r.1 <= |attempts|
    ensures r.0 == attempts[r.1 - 1]
    ensures forall i :: 0 <= i < r.1 - 1 ==> attempts[i].err.Some?
    ensures r.1 < |attempts| ==> r.0.err.None?
  {
    if |attempts| == 1 || attempts[0].err.None? then (attempts[0], 1)
    else
      var rest := Retry(attempts[1..]);
      (rest.0, rest.1 + 1)
  }

  /** The retry rule's result is pinned down by where the first clean attempt is. */
  lemma RetryStopsAt(attempts: seq<Outcome>, k: nat)
    requires 1 <= k <= |attempts|
    requires forall i :: 0 <= i < k - 1 ==> attempts[i].err.Some?
    requires k == |attempts| || attempts[k - 1].err.None?
    ensures Retry(attempts) == (attempts[k - 1], k)
  {
  }

  /** A clean first attempt, be it a success or a failure, is never retried. */
  lemma CleanAttemptNotRetried(attempts: seq<Outcome>)
    requires |attempts| > 0 && attempts[0].err.None?
    ensures Retry(attempts) == (attempts[0], 1)
  {
  }

  /** When every attempt errs, all are made and the last one is returned. */
  lemma AllErrorsKeepLast(attempts: seq<Outcome>)
    requires |attempts| > 0
    requires forall i :: 0 <= i < |attempts| ==> attempts[i].err.Some?
    ensures Retry(attempts) == (attempts[|attempts| - 1], |attempts|)
  {
    RetryStopsAt(attempts, |attempts|);
  }

  /**
   * Runs up to three attempts, stopping at the first one without an error;
   * returns the kept outcome and how many attempts were made.
   */
  method RunProbeWithRetries(p: ProbeSpec, pod: string, podIP: string, container: Container,
                             containerID: string, atoi: string -> Option<int>, replies: seq<Outcome>)
    returns (out: Outcome, attempts: nat)
    requires |replies| == MaxAttempts
    ensures (out, attempts) == Retry(AttemptOutcomes(p, pod, podIP, container, containerID, atoi, replies))
  {
    ghost var outs := AttemptOutcomes(p, pod, podIP, container, containerID, atoi, replies);
    out := Outcome(Unknown, "", None);
    attempts := 0;
    while attempts < MaxAttempts
      invariant 0 <= attempts <= MaxAttempts
      invariant forall j :: 0 <= j < attempts ==> outs[j].err.Some?
      invariant attempts > 0 ==> out == outs[attempts - 1]
    {
      out := RunProbe(p, pod, podIP, container, containerID, atoi, replies[attempts]);
      attempts := attempts + 1;
      if out.err.None? {
        RetryStopsAt(outs, attempts);
        return;
      }
    }
    RetryStopsAt(outs, attempts);
  }

  /**
   * Probes a container: no declared probe counts as success without any
   * attempt; otherwise the retried outcome is a success only when it has no
   * error and a `Success` result, and its error is reported either way.
   */
  method Probe(spec: Option<ProbeSpec>, pod: string, podIP: string, container: Container,
               containerID: string, atoi: string -> Option<int>, replies: seq<Outcome>)
    returns (result: ProbeResult, err: Option<ProbeError>, attempts: nat)
    requires |replies| == MaxAttempts
    ensures result != Unknown
    ensures spec.None? ==> result == Success && err.None? && attempts == 0
    ensures spec.Some? ==>
              var (kept, n) := Retry(AttemptOutcomes(spec.value, pod, podIP, container, containerID, atoi, replies));
              && attempts == n
              && err == kept.err
              && (result == Success <==> kept.err.None? && kept.result == Success)
  {
    if spec.None? {
      return Success, None, 0;
    }
    var out;
    out, attempts := RunProbeWithRetries(spec.value, pod, podIP, container, containerID, atoi, replies);
    if out.err.Some? || out.result != Success {
      return Failure, out.err, attempts;
    }
    return Success, None, attempts;
  }

  // ---------------------------------------------------------------------
  // Properties of the whole engine

  /** A port that does not resolve finishes every attempt without the backend. */
  lemma PortErrorSkipsBackend(p: ProbeSpec, pod: string, podIP: string, container: Container,
                                                containerID: string, atoi: string -> Option<int>,
                                                replies1: seq<Outcome>, replies2: seq<Outcome>)
    requires p.exec.None? && p.httpGet.Some?
    requires ExtractPort(p.httpGet.value.port, container, atoi).Err?
    requires |replies1| == |replies2|
    ensures AttemptOutcomes(p, pod, podIP, container, containerID, atoi, replies1)
         == AttemptOutcomes(p, pod, podIP, container, containerID, atoi, replies2)
    ensures forall o :: o in AttemptOutcomes(p, pod, podIP, container, containerID, atoi, replies1) ==>
              o == Outcome(Unknown, "", Some(ExtractPort(p.httpGet.value.port, container, atoi).error))
  {
  }

  /**
   * A declared probe with no handler errs on every attempt, so all three
   * attempts are made and the probe is reported as failed.
   */
  lemma NoHandlerUsesAllAttempts(p: ProbeSpec, pod: string, podIP: string, container: Container,
                                 containerID: string, atoi: string -> Option<int>, replies: seq<Outcome>)
    requires p.exec.None? && p.httpGet.None? && p.tcpSocket.None?
    requires |replies| == MaxAttempts
    ensures Retry(AttemptOutcomes(p, pod, podIP, container, containerID, atoi, replies)) ==
            (Outcome(Unknown, "", Some(MissingHandler(pod, container.name))), MaxAttempts)
  {
  }
}
