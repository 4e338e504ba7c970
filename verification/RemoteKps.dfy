/**
  A KPS behind gRPC answers like one in the same process. Errors are Go error trees;
  the server maps them to gRPC codes by searching a table in map-iteration order, the
  client maps codes back to statuses, and the HTTP layer reads statuses off the tree.
  */
module RemoteKps {
  import opened Integers
  import opened Statuses
  import opened SymbolicBytes
  import opened Handles
  import opened X25519
  import opened KeyTypes
  import opened Listing
  import opened Enumerate

  datatype GrpcCode =
    | OkCode
    | NotFoundCode
    | InvalidArgumentCode
    | PermissionDeniedCode
    | UnauthenticatedCode
    | AlreadyExistsCode
    | InternalCode
    | OtherCode(number: nat)

  datatype Error =
    | FfiStatus(code: Status)      // *FFIStatus
    | BareStatus(code: Status)     // a Status used as an error
    | Grpc(grpc: GrpcCode)         // an error made by the status package
    | Plain                        // errors.New, fmt.Errorf without %w
    | Wrap(inner: Error)           // fmt.Errorf with %w
    | Join(errors: seq<Error>)     // errors.Join

  /** errors.Is(err, target) for a Status target. */
  predicate Is(err: Error, target: Status) {
    match err
    case FfiStatus(c) => c == target
    case BareStatus(c) => c == target
    case Grpc(_) => false
    case Plain => false
    case Wrap(inner) => Is(inner, target)
    case Join(errors) => exists e :: e in errors && Is(e, target)
  }

  function HttpStatus(err: Option<Error>): int {
    match err
    case None => 200
    case Some(e) =>
      if Is(e, NotFound) then 404
      else if Is(e, InvalidArgument) || Is(e, UnsupportedAlgorithm) || Is(e, InvalidKey) then 400
      else if Is(e, PermissionDenied) then 403
      else if Is(e, Unauthenticated) then 401
      else if Is(e, AlreadyExists) then 409
      else 500
  }

  /** The number of each status on its own. */
  function HttpNumber(s: Status): int {
    match s
    case NotFound => 404
    case InvalidArgument => 400
    case UnsupportedAlgorithm => 400
    case InvalidKey => 400
    case PermissionDenied => 403
    case Unauthenticated => 401
    case AlreadyExists => 409
    case _ => 500
  }

  /** A chain around a status is answered with that status's number, and one around none with 500. */
  lemma {:induction false} HttpStatusOfChain(err: Error)
    requires NoJoin(err)
    ensures HttpStatus(Some(err)) ==
            match Holds(err) case Some(s) => HttpNumber(s) case None => 500
    ensures forall s :: Is(err, s) <==> Holds(err) == Some(s)
  {
    if err.Wrap? {
      HttpStatusOfChain(err.inner);
    }
  }

  /** The status at the end of a chain. */
  function Holds(err: Error): Option<Status> {
    match err
    case FfiStatus(s) => Some(s)
    case BareStatus(s) => Some(s)
    case Wrap(inner) => Holds(inner)
    case _ => None
  }

  /** No error is answered as a success, and one that holds no listed status is answered 500. */
  lemma ErrorsAreNotSuccesses(err: Error)
    ensures HttpStatus(Some(err)) in {400, 401, 403, 404, 409, 500}
    ensures HttpStatus(Some(err)) == 500 <==> forall s :: InTable(s) ==> !Is(err, s)
  {
    if HttpStatus(Some(err)) != 500 {
      assert InTable(NotFound) && InTable(InvalidArgument) && InTable(UnsupportedAlgorithm) && InTable(InvalidKey);
      assert InTable(PermissionDenied) && InTable(Unauthenticated) && InTable(AlreadyExists);
    }
  }

  /** Wrapping changes nothing, and two errors joined are answered like the worse-ranked of them. */
  lemma HttpStatusOfTrees(a: Error, b: Error)
    ensures HttpStatus(Some(Wrap(a))) == HttpStatus(Some(a))
    ensures HttpStatus(Some(Join([a, b]))) == First(HttpStatus(Some(a)), HttpStatus(Some(b)))
  {
    JoinIs(a, b, NotFound);
    JoinIs(a, b, InvalidArgument);
    JoinIs(a, b, UnsupportedAlgorithm);
    JoinIs(a, b, InvalidKey);
    JoinIs(a, b, PermissionDenied);
    JoinIs(a, b, Unauthenticated);
    JoinIs(a, b, AlreadyExists);
    StatusOfUnion(a, b, Join([a, b]));
  }

  lemma StatusOfUnion(a: Error, b: Error, both: Error)
    requires Is(both, NotFound) <==> Is(a, NotFound) || Is(b, NotFound)
    requires Is(both, InvalidArgument) <==> Is(a, InvalidArgument) || Is(b, InvalidArgument)
    requires Is(both, UnsupportedAlgorithm) <==> Is(a, UnsupportedAlgorithm) || Is(b, UnsupportedAlgorithm)
    requires Is(both, InvalidKey) <==> Is(a, InvalidKey) || Is(b, InvalidKey)
    requires Is(both, PermissionDenied) <==> Is(a, PermissionDenied) || Is(b, PermissionDenied)
    requires Is(both, Unauthenticated) <==> Is(a, Unauthenticated) || Is(b, Unauthenticated)
    requires Is(both, AlreadyExists) <==> Is(a, AlreadyExists) || Is(b, AlreadyExists)
    ensures HttpStatus(Some(both)) == First(HttpStatus(Some(a)), HttpStatus(Some(b)))
  {
    RankedStatus(a);
    RankedStatus(b);
    RankedStatus(both);
    RankedUnion(Is(a, NotFound), IsBadRequest(a), Is(a, PermissionDenied), Is(a, Unauthenticated),
                Is(a, AlreadyExists),
                Is(b, NotFound), IsBadRequest(b), Is(b, PermissionDenied), Is(b, Unauthenticated),
                Is(b, AlreadyExists));
  }

  predicate IsBadRequest(e: Error) {
    Is(e, InvalidArgument) || Is(e, UnsupportedAlgorithm) || Is(e, InvalidKey)
  }

  function Ranked(missing: bool, bad: bool, denied: bool, unknown: bool, taken: bool): int {
    if missing then 404
    else if bad then 400
    else if denied then 403
    else if unknown then 401
    else if taken then 409
    else 500
  }

  lemma RankedStatus(e: Error)
    ensures HttpStatus(Some(e)) ==
            Ranked(Is(e, NotFound), IsBadRequest(e), Is(e, PermissionDenied), Is(e, Unauthenticated),
                   Is(e, AlreadyExists))
  {
  }

  lemma RankedUnion(m: bool, b: bool, d: bool, u: bool, t: bool, m': bool, b': bool, d': bool, u': bool, t': bool)
    ensures Ranked(m || m', b || b', d || d', u || u', t || t') ==
            First(Ranked(m, b, d, u, t), Ranked(m', b', d', u', t'))
  {
  }

  lemma JoinIs(a: Error, b: Error, s: Status)
    ensures Is(Join([a, b]), s) <==> Is(a, s) || Is(b, s)
  {
    assert [a, b][0] == a && [a, b][1] == b;
  }

  /** Of two answers, the one that comes first in the order 404, 400, 403, 401, 409, anything else. */
  function First(x: int, y: int): int {
    if x == 404 || y == 404 then 404
    else if x == 400 || y == 400 then 400
    else if x == 403 || y == 403 then 403
    else if x == 401 || y == 401 then 401
    else if x == 409 || y == 409 then 409
    else 500
  }

  // ---------- server side ----------

  predicate InTable(s: Status) {
    || s.NotFound? || s.InvalidArgument? || s.UnsupportedAlgorithm? || s.InvalidKey?
    || s.PermissionDenied? || s.Unauthenticated? || s.AlreadyExists?
  }

  function CodeOf(s: Status): GrpcCode {
    match s
    case NotFound => NotFoundCode
    case InvalidArgument => InvalidArgumentCode
    case UnsupportedAlgorithm => InvalidArgumentCode
    case InvalidKey => InvalidArgumentCode
    case PermissionDenied => PermissionDeniedCode
    case Unauthenticated => UnauthenticatedCode
    case AlreadyExists => AlreadyExistsCode
    case _ => InternalCode
  }

  predicate Distinct(order: seq<Status>) {
    forall i, j :: 0 <= i < j < |order| ==> order[i] != order[j]
  }

  /** An order in which ranging over the table may visit its keys. */
  predicate IsTableOrder(order: seq<Status>) {
    && (forall s :: s in order <==> InTable(s))
    && Distinct(order)
  }

  function FirstCode(err: Error, order: seq<Status>): GrpcCode {
    if |order| == 0 then InternalCode
    else if Is(err, order[0]) then CodeOf(order[0])
    else FirstCode(err, order[1..])
  }

  method GrpcCodeFromError(err: Error, order: seq<Status>) returns (code: GrpcCode)
    ensures code == FirstCode(err, order)
  {
    for i := 0 to |order|
      invariant FirstCode(err, order) == FirstCode(err, order[i..])
    {
      if Is(err, order[i]) {
        return CodeOf(order[i]);
      }
    }
    code := InternalCode;
  }

  // ---------- client side ----------

  /** The status that status.FromError finds, searching depth first. */
  function GrpcIn(err: Error): Option<GrpcCode> {
    match err
    case Grpc(c) => Some(c)
    case Wrap(inner) => GrpcIn(inner)
    case Join(errors) => GrpcInAny(errors)
    case _ => None
  }

  function GrpcInAny(errors: seq<Error>): Option<GrpcCode> {
    if |errors| == 0 then None
    else if GrpcIn(errors[0]).Some? then GrpcIn(errors[0])
    else GrpcInAny(errors[1..])
  }

  function StatusOf(c: GrpcCode): Option<Status> {
    match c
    case NotFoundCode => Some(NotFound)
    case InvalidArgumentCode => Some(InvalidArgument)
    case PermissionDeniedCode => Some(PermissionDenied)
    case UnauthenticatedCode => Some(Unauthenticated)
    case AlreadyExistsCode => Some(AlreadyExists)
    case _ => None
  }

  function FfiStatusFromGrpc(err: Option<Error>): Option<Error> {
    match err
    case None => None
    case Some(e) =>
      match GrpcIn(e)
      case None => err
      case Some(OkCode) => None
      case Some(c) => if StatusOf(c).Some? then Some(FfiStatus(StatusOf(c).value)) else err
  }

  /** What the workload daemon sees of an error raised inside the remote KPS. */
  function Remote(err: Option<Error>, order: seq<Status>): Option<Error> {
    match err
    case None => FfiStatusFromGrpc(None)
    case Some(e) => FfiStatusFromGrpc(Some(Grpc(FirstCode(e, order))))
  }

  /** The daemon's reading of a gRPC code, however deeply wrapped, and of errors that hold none. */
  lemma {:induction false} ClientReadsCodes(err: Error)
    requires NoJoin(err)
    ensures match GrpcIn(err)
            case Some(OkCode) => FfiStatusFromGrpc(Some(err)) == None
            case Some(c) =>
              HttpStatus(FfiStatusFromGrpc(Some(err))) ==
              (match c case NotFoundCode => 404 case InvalidArgumentCode => 400 case PermissionDeniedCode => 403
                       case UnauthenticatedCode => 401 case AlreadyExistsCode => 409 case _ => 500)
            case None => FfiStatusFromGrpc(Some(err)) == Some(err)
    ensures GrpcIn(err).Some? ==> forall s :: !Is(err, s)
  {
    if err.Wrap? {
      ClientReadsCodes(err.inner);
    }
  }

  // ---------- agreement ----------

  /** The error holds a status that the table sends to c. */
  predicate Carries(err: Option<Error>, c: GrpcCode) {
    err.Some? &&
    match c
    case NotFoundCode => Is(err.value, NotFound)
    case InvalidArgumentCode =>
      Is(err.value, InvalidArgument) || Is(err.value, UnsupportedAlgorithm) || Is(err.value, InvalidKey)
    case PermissionDeniedCode => Is(err.value, PermissionDenied)
    case UnauthenticatedCode => Is(err.value, Unauthenticated)
    case AlreadyExistsCode => Is(err.value, AlreadyExists)
    case _ => false
  }

  /** The tree holds statuses of at most one gRPC code. */
  ghost predicate OneCode(err: Error) {
    forall c, d :: Carries(Some(err), c) && Carries(Some(err), d) ==> c == d
  }

  predicate NoJoin(err: Error) {
    match err
    case Wrap(inner) => NoJoin(inner)
    case Join(_) => false
    case _ => true
  }

  lemma {:induction false} ChainsAreUniform(err: Error, s: Status, t: Status)
    requires NoJoin(err) && Is(err, s) && Is(err, t)
    ensures s == t
  {
    if err.Wrap? {
      ChainsAreUniform(err.inner, s, t);
    }
  }

  /** A chain of wraps of any depth carries at most one code. */
  lemma ChainsCarryOneCode(err: Error)
    requires NoJoin(err)
    ensures OneCode(err)
  {
    forall s, t | Is(err, s) && Is(err, t)
      ensures s == t
    {
      ChainsAreUniform(err, s, t);
    }
  }

  lemma {:induction false} FirstCodeIsCarried(err: Error, order: seq<Status>)
    requires forall s :: s in order ==> InTable(s)
    ensures Carries(Some(err), FirstCode(err, order))
         || (FirstCode(err, order) == InternalCode && forall s :: s in order ==> !Is(err, s))
  {
    if |order| > 0 {
      assert order[0] in order;
      if !Is(err, order[0]) {
        FirstCodeIsCarried(err, order[1..]);
      }
    }
  }

  /** Errors alike in what they carry get the same answer. */
  lemma SameCodesSameStatus(a: Error, b: Error)
    requires forall c :: Carries(Some(a), c) <==> Carries(Some(b), c)
    ensures HttpStatus(Some(a)) == HttpStatus(Some(b))
  {
    assert Carries(Some(a), NotFoundCode) == Carries(Some(b), NotFoundCode);
    assert Carries(Some(a), InvalidArgumentCode) == Carries(Some(b), InvalidArgumentCode);
    assert Carries(Some(a), PermissionDeniedCode) == Carries(Some(b), PermissionDeniedCode);
    assert Carries(Some(a), UnauthenticatedCode) == Carries(Some(b), UnauthenticatedCode);
    assert Carries(Some(a), AlreadyExistsCode) == Carries(Some(b), AlreadyExistsCode);
  }

  lemma RemoteIsAnError(err: Error, order: seq<Status>)
    requires forall s :: s in order ==> InTable(s)
    ensures Remote(Some(err), order).Some?
  {
    FirstCodeIsCarried(err, order);
  }

  /** With one code in the tree, translation there and back changes nothing the HTTP layer reads. */
  lemma RemoteCarriesTheSame(err: Error, order: seq<Status>, c: GrpcCode)
    requires OneCode(err) && IsTableOrder(order)
    ensures Carries(Remote(Some(err), order), c) <==> Carries(Some(err), c)
  {
    FirstCodeIsCarried(err, order);
    var first := FirstCode(err, order);
    if Carries(Some(err), first) {
      assert Carries(Some(err), c) ==> c == first;
    } else {
      assert forall s :: InTable(s) ==> !Is(err, s);
    }
  }

  lemma RotationKeeps(order: seq<Status>, i: nat)
    requires i < |order| && Distinct(order)
    ensures var r := order[i..] + order[..i]; Distinct(r) && forall s :: s in r <==> s in order
  {
    assert order == order[..i] + order[i..];
  }

  lemma OrderStartingWith(s: Status) returns (order: seq<Status>)
    requires InTable(s)
    ensures IsTableOrder(order) && order[0] == s
  {
    WrittenOrderIsOne();
    var i :| 0 <= i < |WRITTEN_ORDER| && WRITTEN_ORDER[i] == s;
    RotationKeeps(WRITTEN_ORDER, i);
    order := WRITTEN_ORDER[i..] + WRITTEN_ORDER[..i];
  }

  const WRITTEN_ORDER :=
    [NotFound, InvalidArgument, UnsupportedAlgorithm, InvalidKey, PermissionDenied, Unauthenticated, AlreadyExists]

  lemma WrittenOrderIsOne()
    ensures IsTableOrder(WRITTEN_ORDER)
  {
    assert forall i :: 0 <= i < |WRITTEN_ORDER| ==> InTable(WRITTEN_ORDER[i]);
    assert forall s :: InTable(s) ==> s in WRITTEN_ORDER;
  }

  function CarriedStatus(err: Error, c: GrpcCode): (s: Status)
    requires Carries(Some(err), c)
    ensures InTable(s) && CodeOf(s) == c && Is(err, s)
  {
    match c
    case NotFoundCode => NotFound
    case InvalidArgumentCode =>
      if Is(err, InvalidArgument) then InvalidArgument
      else if Is(err, UnsupportedAlgorithm) then UnsupportedAlgorithm
      else InvalidKey
    case PermissionDeniedCode => PermissionDenied
    case UnauthenticatedCode => Unauthenticated
    case AlreadyExistsCode => AlreadyExists
  }

  /** A table order under which an error carrying c is sent as c. */
  lemma SentAs(err: Error, c: GrpcCode) returns (order: seq<Status>)
    requires Carries(Some(err), c)
    ensures IsTableOrder(order) && StatusOf(c).Some? && Remote(Some(err), order) == Some(FfiStatus(StatusOf(c).value))
  {
    order := OrderStartingWith(CarriedStatus(err, c));
  }

  lemma OneCodeAgrees(err: Error, order: seq<Status>)
    requires OneCode(err) && IsTableOrder(order)
    ensures HttpStatus(Remote(Some(err), order)) == HttpStatus(Some(err))
  {
    RemoteIsAnError(err, order);
    forall c ensures Carries(Remote(Some(err), order), c) <==> Carries(Some(err), c) {
      RemoteCarriesTheSame(err, order, c);
    }
    SameCodesSameStatus(Remote(Some(err), order).value, err);
  }

  lemma TwoCodesDisagree(err: Error, c: GrpcCode, d: GrpcCode) returns (order: seq<Status>)
    requires Carries(Some(err), c) && Carries(Some(err), d) && c != d
    ensures IsTableOrder(order) && HttpStatus(Remote(Some(err), order)) != HttpStatus(Some(err))
  {
    var first := SentAs(err, c);
    var second := SentAs(err, d);
    DistinctCodesDistinctStatuses(c, d);
    order := if HttpStatus(Remote(Some(err), first)) != HttpStatus(Some(err)) then first else second;
  }

  lemma DistinctCodesDistinctStatuses(c: GrpcCode, d: GrpcCode)
    requires StatusOf(c).Some? && StatusOf(d).Some? && c != d
    ensures HttpStatus(Some(FfiStatus(StatusOf(c).value))) != HttpStatus(Some(FfiStatus(StatusOf(d).value)))
  {
  }

  /** Remote and in-process KPS give the same HTTP status under every map order exactly when the
      error tree carries at most one code. */
  lemma RemoteAgreesIff(err: Error)
    ensures (forall order :: IsTableOrder(order) ==> HttpStatus(Remote(Some(err), order)) == HttpStatus(Some(err)))
            <==> OneCode(err)
  {
    if OneCode(err) {
      forall order | IsTableOrder(order)
        ensures HttpStatus(Remote(Some(err), order)) == HttpStatus(Some(err))
      {
        OneCodeAgrees(err, order);
      }
    } else {
      var c, d :| Carries(Some(err), c) && Carries(Some(err), d) && c != d;
      var order := TwoCodesDisagree(err, c, d);
    }
  }

  // ---------- destroy joins two errors ----------

  function JoinErrors(a: Option<Error>, b: Option<Error>): Option<Error> {
    var present := (if a.Some? then [a.value] else []) + (if b.Some? then [b.value] else []);
    if |present| == 0 then None else Some(Join(present))
  }

  lemma JoinCarriesEither(a: Option<Error>, b: Option<Error>, c: GrpcCode)
    ensures Carries(JoinErrors(a, b), c) <==> Carries(a, c) || Carries(b, c)
  {
    if JoinErrors(a, b).Some? {
      var present := JoinErrors(a, b).value.errors;
      assert a.Some? ==> a.value in present;
      assert b.Some? ==> b.value in present;
      assert forall e :: e in present ==> a == Some(e) || b == Some(e);
    }
  }

  /** The status of a failed destroy does not depend on which half failed first. */
  lemma JoinIsSymmetric(a: Option<Error>, b: Option<Error>)
    ensures HttpStatus(JoinErrors(a, b)) == HttpStatus(JoinErrors(b, a))
  {
    if a.Some? || b.Some? {
      forall c ensures Carries(JoinErrors(a, b), c) <==> Carries(JoinErrors(b, a), c) {
        JoinCarriesEither(a, b, c);
        JoinCarriesEither(b, a, c);
      }
      SameCodesSameStatus(JoinErrors(a, b).value, JoinErrors(b, a).value);
    }
  }

  /** Translating the KPS half across gRPC leaves the joined status as it was. */
  lemma RemoteDestroyAgrees(kps: Option<Error>, wsd: Option<Error>, order: seq<Status>)
    requires IsTableOrder(order) && (kps.Some? ==> OneCode(kps.value))
    ensures HttpStatus(JoinErrors(Remote(kps, order), wsd)) == HttpStatus(JoinErrors(kps, wsd))
  {
    if kps.Some? {
      RemoteIsAnError(kps.value, order);
      forall c ensures Carries(JoinErrors(Remote(kps, order), wsd), c) <==> Carries(JoinErrors(kps, wsd), c) {
        RemoteCarriesTheSame(kps.value, order, c);
        JoinCarriesEither(Remote(kps, order), wsd, c);
        JoinCarriesEither(kps, wsd, c);
      }
      SameCodesSameStatus(JoinErrors(Remote(kps, order), wsd).value, JoinErrors(kps, wsd).value);
    }
  }

  // ---------- successful results ----------

  datatype Reply<T> = Good(value: T) | Bad(error: Error)

  function AsError<T>(r: Reply<T>): Option<Error> {
    match r case Good(_) => None case Bad(e) => Some(e)
  }

  datatype WireKey = WireKey(handle: string, algorithm: HpkeAlgorithm, kemPubKey: Bytes, remainingSecs: nat)

  method ToWire(keys: seq<KemKeyInfo>) returns (wire: seq<WireKey>)
    ensures |wire| == |keys|
    ensures forall i :: 0 <= i < |keys| ==>
              wire[i] == WireKey(UuidText(keys[i].id), keys[i].algorithm, keys[i].kemPubKey, keys[i].remainingSecs)
  {
    wire := [];
    for i := 0 to |keys|
      invariant |wire| == i
      invariant forall j :: 0 <= j < i ==>
                  wire[j] == WireKey(UuidText(keys[j].id), keys[j].algorithm, keys[j].kemPubKey, keys[j].remainingSecs)
    {
      var k := keys[i];
      wire := wire + [WireKey(UuidText(k.id), k.algorithm, k.kemPubKey, k.remainingSecs)];
    }
  }

  /** Fails at the first handle that does not parse. */
  method FromWire(wire: seq<WireKey>) returns (keys: Option<seq<KemKeyInfo>>)
    ensures keys.None? <==> exists w :: w in wire && ParseUuid(w.handle).None?
    ensures keys.Some? ==> |keys.value| == |wire|
    ensures keys.Some? ==> forall i :: 0 <= i < |wire| ==>
              keys.value[i] == KemKeyInfo(ParseUuid(wire[i].handle).value, wire[i].algorithm, wire[i].kemPubKey,
                                          wire[i].remainingSecs)
  {
    var parsed: seq<KemKeyInfo> := [];
    for i := 0 to |wire|
      invariant |parsed| == i
      invariant forall j :: 0 <= j < i ==> ParseUuid(wire[j].handle).Some?
      invariant forall j :: 0 <= j < i ==>
                  parsed[j] == KemKeyInfo(ParseUuid(wire[j].handle).value, wire[j].algorithm, wire[j].kemPubKey,
                                          wire[j].remainingSecs)
    {
      var w := wire[i];
      var id := ParseUuid(w.handle);
      if id.None? {
        assert w in wire;
        return None;
      }
      parsed := parsed + [KemKeyInfo(id.value, w.algorithm, w.kemPubKey, w.remainingSecs)];
    }
    keys := Some(parsed);
  }

  /** The server's request validation of the enumerate call. */
  predicate ValidRequest(limit: Int32, offset: Int32) {
    0 < limit <= 10000 && 0 <= offset
  }

  /** Enumerating through gRPC: a valid request returns exactly what the KPS returned, keys and flag. */
  method RemoteEnumerate(limit: Int32, offset: Int32, local: Reply<(seq<KemKeyInfo>, bool)>, order: seq<Status>)
    returns (r: Reply<(seq<KemKeyInfo>, bool)>)
    requires IsTableOrder(order)
    ensures !ValidRequest(limit, offset) ==> r == Bad(FfiStatus(InvalidArgument))
    ensures ValidRequest(limit, offset) && local.Good? ==> r == local
    ensures ValidRequest(limit, offset) && local.Bad? ==> AsError(r) == Remote(Some(local.error), order)
  {
    if !ValidRequest(limit, offset) {
      var translated := FfiStatusFromGrpc(Some(Grpc(InvalidArgumentCode)));
      return Bad(translated.value);
    }
    if local.Bad? {
      RemoteIsAnError(local.error, order);
      var code := GrpcCodeFromError(local.error, order);
      var translated := FfiStatusFromGrpc(Some(Grpc(code)));
      return Bad(translated.value);
    }
    var wire := ToWire(local.value.0);
    forall i | 0 <= i < |wire|
      ensures ParseUuid(wire[i].handle) == Some(local.value.0[i].id)
    {
      UuidRoundTrip(local.value.0[i].id);
    }
    var keys := FromWire(wire);
    assert keys.value == local.value.0;
    r := Good((keys.value, local.value.1));
  }

  /** The in-process reply as the daemon holds it. A status number without a name is an error that no
      test matches, like Unspecified. */
  function AsReply<T>(r: GoResult<T>): Reply<T> {
    match r
    case Value(v) => Good(v)
    case PlainError => Bad(Plain)
    case StatusError(code) => Bad(FfiStatus(if FromCode(code).Some? then FromCode(code).value else Unspecified))
  }

  /** A failure in the core reaches the daemon as the status it was. */
  lemma StatusSurvivesFfi(s: Status)
    requires s != Success && s != Unspecified
    ensures ReadCode(ReturnCode(Err(s))) == Failure(Code(s))
    ensures AsReply<int>(StatusError(Code(s))) == Bad(FfiStatus(s))
  {
  }

  /** The same registry enumerated in process and behind gRPC, for every int32 limit and offset and
      every table order. Request validation stands only in front of the remote form, so the HTTP
      statuses agree exactly on the arguments it lets through, and then so do the replies. */
  method EnumerateBothWays(keys: Keys, order: seq<Uuid>, now: nat, times: seq<nat>, limit: Int32, offset: Int32,
                           table: seq<Status>)
    returns (local: Reply<(seq<KemKeyInfo>, bool)>, remote: Reply<(seq<KemKeyInfo>, bool)>)
    requires KemRegistry(keys) && Enumerates(order, keys) && (limit > 0 ==> |times| == limit)
    requires IsTableOrder(table)
    ensures HttpStatus(AsError(local)) == HttpStatus(AsError(remote)) <==> 1 <= limit <= 10000 && 0 <= offset
    ensures ValidRequest(limit, offset) ==> local.Good? && remote == local
    ensures local.Good? <==> limit > 0 && offset >= 0
    ensures local.Good? ==> exists l :: IsListing(keys, now, l)
    ensures local.Good? ==> forall l :: IsListing(keys, now, l) ==>
              ShowsPage(local.value.0, Page(l, offset, limit), times)
  {
    var reply := EnumerateKemKeys(keys, order, now, times, limit, offset);
    local := AsReply(reply);
    remote := RemoteEnumerate(limit, offset, local, table);
  }

  // ---------- the other calls ----------

  /** What the daemon makes of the KPS's error. */
  function Translated<T>(err: Error, order: seq<Status>): Reply<T>
    requires IsTableOrder(order)
  {
    RemoteIsAnError(err, order);
    Bad(Remote(Some(err), order).value)
  }

  /** The remote form of a result: unchanged if good, translated if not. */
  function Relayed<T>(r: Reply<T>, order: seq<Status>): Reply<T>
    requires IsTableOrder(order)
  {
    match r
    case Good(_) => r
    case Bad(e) => Translated(e, order)
  }

  /** A call that names a key: the daemon prints the handle, the server parses it and calls `svc`. */
  function CallByHandle<T>(id: Uuid, svc: Uuid -> Reply<T>, order: seq<Status>): Reply<T>
    requires IsTableOrder(order)
  {
    match ParseUuid(UuidText(id))
    case None => Bad(FfiStatusFromGrpc(Some(Grpc(InvalidArgumentCode))).value)
    case Some(parsed) => Relayed(svc(parsed), order)
  }

  datatype WireGenerated = WireGenerated(handle: string, kemAlgorithm: Int32, kemPubKey: Bytes)

  /** Generate: the server prints the new handle, the daemon parses it. */
  function RemoteGenerate(algo: HpkeAlgorithm, made: Reply<(Uuid, Bytes)>, order: seq<Status>): Reply<(Uuid, Bytes)>
    requires IsTableOrder(order)
  {
    match made
    case Bad(e) => Translated(e, order)
    case Good((id, kemPub)) =>
      var wire := WireGenerated(UuidText(id), algo.kem, kemPub);
      match ParseUuid(wire.handle)
      case None => Bad(Plain)
      case Some(parsed) => Good((parsed, wire.kemPubKey))
  }

  datatype KemKey = KemKey(kemPubKey: Bytes, bindingPubKey: Bytes, algorithm: HpkeAlgorithm, remainingSecs: nat)

  datatype WireKemKey = WireKemKey(
    kemAlgorithm: Int32, kemPubKey: Bytes,
    bindingAlgorithm: HpkeAlgorithm, bindingPubKey: Bytes,
    remainingSecs: nat)

  function ToWireKey(k: KemKey): WireKemKey {
    WireKemKey(k.algorithm.kem, k.kemPubKey, k.algorithm, k.bindingPubKey, k.remainingSecs)
  }

  /** The daemon takes the suite from the binding key's half. */
  function FromWireKey(w: WireKemKey): KemKey {
    KemKey(w.kemPubKey, w.bindingPubKey, w.bindingAlgorithm, w.remainingSecs)
  }

  function RemoteGetKey(id: Uuid, svc: Uuid -> Reply<KemKey>, order: seq<Status>): Reply<KemKey>
    requires IsTableOrder(order)
  {
    var served := (parsed: Uuid) => match svc(parsed) case Good(k) => Good(ToWireKey(k)) case Bad(e) => Bad(e);
    match CallByHandle(id, served, order)
    case Good(w) => Good(FromWireKey(w))
    case Bad(e) => Bad(e)
  }

  /** Generate, get-key, decap-and-seal and destroy through gRPC reach the key that was named and
      return what the KPS returned; only its errors are translated. */
  lemma RemoteCallsRelay<T>(id: Uuid, svc: Uuid -> Reply<T>, get: Uuid -> Reply<KemKey>,
                            algo: HpkeAlgorithm, made: Reply<(Uuid, Bytes)>, order: seq<Status>)
    requires IsTableOrder(order)
    ensures CallByHandle(id, svc, order) == Relayed(svc(id), order)
    ensures RemoteGetKey(id, get, order) == Relayed(get(id), order)
    ensures RemoteGenerate(algo, made, order) == Relayed(made, order)
  {
    UuidRoundTrip(id);
    if made.Good? {
      UuidRoundTrip(made.value.0);
    }
  }

  // ---------- inside the domain ----------

  /** The errors a KPS raises are chains around one status or none; on these the remote form of a
      result has the HTTP status of the local one under every table order. */
  lemma RelayedStatusAgrees<T>(r: Reply<T>, order: seq<Status>)
    requires IsTableOrder(order) && (r.Bad? ==> NoJoin(r.error))
    ensures HttpStatus(AsError(Relayed(r, order))) == HttpStatus(AsError(r))
  {
    if r.Bad? {
      ChainsCarryOneCode(r.error);
      RemoteAgreesIff(r.error);
    }
  }

  const DEFAULT_ENUMERATE_LIMIT: Int32 := 10000

  lemma DaemonRequestIsValid()
    ensures ValidRequest(DEFAULT_ENUMERATE_LIMIT, 0)
  {
  }
}
