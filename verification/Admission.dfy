/** What the server accepts (core/server/server.go:54-139, 158-176), and what that
    guarantees when a pass resolves references. */
module Admission {
  import opened Model
  import opened JsonStrings
  import opened Tokens
  import opened System
  import opened Ordered
  import opened Passes
  import Store
  import Substitution
  import JsonText

  function LowerByte(c: char): char {
    if 'A' <= c <= 'Z' then (c as int + 32) as char else c
  }

  function Lower(s: string): (r: string)
    ensures |r| == |s| && forall i | 0 <= i < |s| :: r[i] == LowerByte(s[i])
  {
    if s == [] then [] else [LowerByte(s[0])] + Lower(s[1..])
  }

  function TrimSuffix(s: string): string {
    if s != [] && s[|s| - 1] == 's' then s[..|s| - 1] else s
  }

  function NormalizeKind(kind: Bytes): Bytes {
    TrimSuffix(Lower(kind))
  }

  /** A kind is normalized once: a second time keeps it exactly when it no longer ends
      in "s", and "s" itself becomes empty. */
  lemma NormalizingTwiceIff(kind: Bytes)
    ensures NormalizeKind(NormalizeKind(kind)) == NormalizeKind(kind)
            <==> NormalizeKind(kind) == [] || NormalizeKind(kind)[|NormalizeKind(kind)| - 1] != 's'
    ensures NormalizeKind("s") == ""
  {
  }

  /** The same letters, an ASCII letter in either case. */
  predicate EqualFold(a: string, b: string) {
    |a| == |b| && forall i | 0 <= i < |a| ::
      || a[i] == b[i]
      || ('A' <= a[i] <= 'Z' && b[i] as int == a[i] as int + 32)
      || ('A' <= b[i] <= 'Z' && a[i] as int == b[i] as int + 32)
  }

  predicate NoUpper(s: string) {
    forall i | 0 <= i < |s| :: !('A' <= s[i] <= 'Z')
  }

  lemma FoldIffLower(a: string, b: string)
    ensures EqualFold(a, b) <==> Lower(a) == Lower(b)
  {
    if Lower(a) == Lower(b) {
      forall i | 0 <= i < |a| ensures LowerByte(a[i]) == LowerByte(b[i]) {
        assert Lower(a)[i] == Lower(b)[i];
      }
    }
  }

  lemma NoUpperIffLower(s: string)
    ensures NoUpper(s) <==> Lower(s) == s
  {
    if Lower(s) == s {
      assert forall i | 0 <= i < |s| :: s[i] == LowerByte(s[i]);
    }
  }

  /** The normalized kind is the one text without upper-case letters that is the kind, in
      either case, without its final s. */
  lemma NormalizedIff(kind: Bytes, r: Bytes)
    ensures NormalizeKind(kind) == r <==>
              NoUpper(r) && (EqualFold(kind, r + "s") || (EqualFold(kind, r) && (r == [] || r[|r| - 1] != 's')))
  {
    FoldIffLower(kind, r + "s");
    FoldIffLower(kind, r);
    NoUpperIffLower(r);
    NoUpperIffLower(r + "s");
    assert NoUpper(r) ==> NoUpper(r + "s");
    LowerIsLower(kind);
    TrimIff(Lower(kind), r);
  }

  lemma LowerIsLower(s: string)
    ensures NoUpper(Lower(s))
  {
  }

  lemma TrimIff(s: string, r: string)
    ensures TrimSuffix(s) == r <==> s == r + "s" || (s == r && (r == [] || r[|r| - 1] != 's'))
  {
    if s != [] && s[|s| - 1] == 's' {
      assert s == s[..|s| - 1] + "s";
    }
  }

  /** So upper and lower case, singular and plural address the same kind. */
  lemma SameKind(a: Bytes, b: Bytes)
    requires EqualFold(a, b) || EqualFold(a, b + "s")
    requires b == [] || b[|b| - 1] !in "sS"
    ensures NormalizeKind(a) == NormalizeKind(b)
  {
    FoldIffLower(a, b);
    FoldIffLower(a, b + "s");
    assert Lower(b + "s") == Lower(b) + "s";
    TrimIff(Lower(a), Lower(b));
    TrimIff(Lower(b), Lower(b));
  }

  function NormalizeReference(ref: Reference): Reference {
    Reference(Key(NormalizeKind(ref.target.kind), ref.target.name), ref.field)
  }

  predicate Filled(ref: Reference) {
    ref.target.kind != [] && ref.target.name != [] && ref.field != []
  }

  datatype Verdict =
    | Accepted(references: map<Bytes, Reference>)
    | BadName(name: Bytes)
    | Incomplete(name: Bytes)
    | Undeclared(token: Bytes)

  /** Every token of the Spec names a declared reference. */
  ghost predicate Closed(references: map<Bytes, Reference>, spec: Bytes) {
    forall token | token in SpecReferenceTokens(spec) :: token in references
  }

  ghost predicate Addressable(refs: map<Bytes, Reference>) {
    forall name | name in refs :: ValidReferenceName(name) && Filled(refs[name])
  }

  ghost predicate NormalizedFrom(references: map<Bytes, Reference>, refs: map<Bytes, Reference>) {
    references.Keys == refs.Keys && forall name | name in refs :: references[name] == NormalizeReference(refs[name])
  }

  /** `token` is the first of `tokens` that no reference declares. */
  ghost predicate FirstUndeclared(tokens: seq<Bytes>, declared: set<Bytes>, token: Bytes) {
    exists i :: 0 <= i < |tokens| && tokens[i] == token && token !in declared && forall j | 0 <= j < i :: tokens[j] in declared
  }

  method CheckReferences(refs: map<Bytes, Reference>) returns (v: Verdict)
    ensures v.Accepted? || v.BadName? || v.Incomplete?
    ensures v.Accepted? <==> Addressable(refs)
    ensures v.Accepted? ==> NormalizedFrom(v.references, refs)
    ensures v.BadName? ==> v.name in refs && !ValidReferenceName(v.name)
    ensures v.Incomplete? ==> v.name in refs && ValidReferenceName(v.name) && !Filled(refs[v.name])
  {
    var normalized: map<Bytes, Reference> := map[];
    var rest := refs.Keys;
    while rest != {}
      invariant rest <= refs.Keys && normalized.Keys == refs.Keys - rest
      invariant forall name | name in normalized ::
                  ValidReferenceName(name) && Filled(refs[name]) && normalized[name] == NormalizeReference(refs[name])
      decreases |rest|
    {
      var name :| name in rest;
      if !ValidReferenceName(name) {
        return BadName(name);
      }
      if !Filled(refs[name]) {
        return Incomplete(name);
      }
      normalized := normalized[name := NormalizeReference(refs[name])];
      rest := rest - {name};
    }
    assert normalized.Keys == refs.Keys;
    return Accepted(normalized);
  }

  method CheckTokens(tokens: seq<Bytes>, declared: set<Bytes>) returns (undeclared: Option<Bytes>)
    ensures undeclared.None? <==> forall token | token in tokens :: token in declared
    ensures undeclared.Some? ==> FirstUndeclared(tokens, declared, undeclared.value)
  {
    for i := 0 to |tokens|
      invariant forall j | 0 <= j < i :: tokens[j] in declared
    {
      if tokens[i] !in declared {
        return Some(tokens[i]);
      }
    }
    return None;
  }

  /** A name a token can address, and all three fields filled. */
  lemma AddressableIff(refs: map<Bytes, Reference>)
    ensures Addressable(refs) <==> forall name | name in refs ::
              ReferenceName(name) && refs[name].target.kind != "" && refs[name].target.name != "" && refs[name].field != ""
  {
    forall name | name in refs ensures ValidReferenceName(name) <==> ReferenceName(name) {
      ValidNameIff(name);
    }
  }

  /** validateReferences. References are looked at in map order, so with several faulty
      ones any of them may be reported; of the tokens the first undeclared one is. */
  method ValidateReferences(refs: map<Bytes, Reference>, spec: Bytes) returns (v: Verdict)
    ensures v.Accepted? <==> Addressable(refs) && Closed(refs, spec)
    ensures Addressable(refs) <==> forall name | name in refs ::
              ReferenceName(name) && refs[name].target.kind != "" && refs[name].target.name != "" && refs[name].field != ""
    ensures v.Accepted? ==> NormalizedFrom(v.references, refs)
    ensures v.Accepted? ==> v.references.Keys == refs.Keys && forall name | name in refs ::
              v.references[name] == Reference(Key(NormalizeKind(refs[name].target.kind), refs[name].target.name), refs[name].field)
    ensures v.BadName? ==> v.name in refs && !ValidReferenceName(v.name)
    ensures v.Incomplete? ==> v.name in refs && ValidReferenceName(v.name) && !Filled(refs[v.name])
    ensures v.Undeclared? ==> Addressable(refs) && FirstUndeclared(SpecReferenceTokens(spec), refs.Keys, v.token)
  {
    AddressableIff(refs);
    v := CheckReferences(refs);
    if v.Accepted? {
      var undeclared := CheckTokens(SpecReferenceTokens(spec), v.references.Keys);
      if undeclared.Some? {
        v := Undeclared(undeclared.value);
      }
    }
  }

  /** Every stored Spec is one the server accepts. */
  ghost predicate AllClosed(items: Items) {
    forall key | key in items :: Closed(items[key].references, items[key].spec)
  }

  /** The server's handlers for writes: validate, write the store, then nudge. */
  class Server {
    var items: Items
    var nudged: bool

    constructor ()
      ensures items == map[] && !nudged
    {
      items, nudged := map[], false;
    }

    method Put(kind: Bytes, name: Bytes, refs: map<Bytes, Reference>, spec: Bytes) returns (accepted: bool)
      modifies this
      ensures accepted <==> spec != [] && Addressable(refs) && Closed(refs, spec)
      ensures accepted ==>
                && nudged
                && exists references: map<Bytes, Reference> ::
                     && NormalizedFrom(references, refs)
                     && items == Store.Put(old(items), Key(NormalizeKind(kind), name), spec, references)
      ensures accepted ==>
                var key := Key(NormalizeKind(kind), name);
                && items.Keys == old(items).Keys + {key} && (forall k | k in old(items) && k != key :: items[k] == old(items)[k])
                && items[key].spec == spec && items[key].references.Keys == refs.Keys
                && (forall name | name in refs ::
                      items[key].references[name] ==
                        Reference(Key(NormalizeKind(refs[name].target.kind), refs[name].target.name), refs[name].field))
                && (if key in old(items) then items[key].marked == old(items)[key].marked && items[key].status == old(items)[key].status
                    else !items[key].marked && items[key].status == Status(NoPhase, false, NoMessage, map[]))
      ensures !accepted ==> items == old(items) && nudged == old(nudged)
      ensures AllClosed(old(items)) ==> AllClosed(items)
    {
      if |spec| == 0 {
        return false;
      }
      var v := ValidateReferences(refs, spec);
      if !v.Accepted? {
        return false;
      }
      items := Store.Put(items, Key(NormalizeKind(kind), name), spec, v.references);
      nudged := true;
      return true;
    }

    method Delete(kind: Bytes, name: Bytes) returns (found: bool)
      modifies this
      ensures found <==> Key(NormalizeKind(kind), name) in old(items)
      ensures items == Store.MarkForDeletion(old(items), Key(NormalizeKind(kind), name))
      ensures
        var key := Key(NormalizeKind(kind), name);
        items == if key in old(items) then old(items)[key := old(items)[key].(marked := true)] else old(items)
      ensures AllClosed(old(items)) ==> AllClosed(items)
      ensures nudged == (old(nudged) || found)
    {
      var key := Key(NormalizeKind(kind), name);
      if key !in items {
        return false;
      }
      items := Store.MarkForDeletion(items, key);
      nudged := true;
      return true;
    }
  }

  // What acceptance guarantees at resolution.

  /** Every position where a token matches names a declared reference. */
  lemma EveryMatchIsDeclared(references: map<Bytes, Reference>, spec: Bytes, at: nat)
    requires Closed(references, spec) && Matches(spec, at)
    ensures TokenName(spec[at..]) in references
  {
    EveryTokenIsListed(spec, at);
  }

  lemma ResolveNextValue(items: Items, todo: seq<Named>, values: map<Bytes, Bytes>, env: Env)
    requires todo != [] && Resolve(items, todo, values, env).Values?
    ensures Wait(items, todo[0].ref) == NoMessage
    ensures Resolve(items, todo, values, env) ==
            Resolve(items, todo[1..], values[todo[0].name := items[todo[0].ref.target].status.observed[todo[0].ref.field]], env)
  {
  }

  /** `value` is what the target's Status reports in the referenced field. */
  predicate Reported(items: Items, ref: Reference, value: Bytes) {
    && ref.target in items && items[ref.target].status.ready
    && ref.field in items[ref.target].status.observed && items[ref.target].status.observed[ref.field] == value
    && value != []
  }

  /** Resolution succeeds exactly when every call does and every reference is ready to
      be read; it parks with the reason of the first reference that is not. */
  lemma {:induction false} ResolutionVerdict(items: Items, todo: seq<Named>, values: map<Bytes, Bytes>, env: Env)
    ensures Resolve(items, todo, values, env).Values?
            <==> forall n | n in todo :: ResolveCall(n.name) !in env.faults && Wait(items, n.ref) == NoMessage
    ensures Resolve(items, todo, values, env).Parked? ==>
              exists i: nat :: FirstBlocked(items, todo, i) && Resolve(items, todo, values, env).why == Wait(items, todo[i].ref)
    decreases todo
  {
    if todo != [] {
      var n := todo[0];
      assert todo == [n] + todo[1..];
      if ResolveCall(n.name) !in env.faults && Wait(items, n.ref) == NoMessage {
        var next := values[n.name := items[n.ref.target].status.observed[n.ref.field]];
        ResolutionVerdict(items, todo[1..], next, env);
        if Resolve(items, todo, values, env).Parked? {
          var i: nat :| FirstBlocked(items, todo[1..], i) && Resolve(items, todo[1..], next, env).why == Wait(items, todo[1..][i].ref);
          BlockedLater(items, todo, i);
        }
      } else if ResolveCall(n.name) !in env.faults {
        assert FirstBlocked(items, todo, 0);
      }
    }
  }

  /** The i-th reference is the first that is not ready to be read. */
  ghost predicate FirstBlocked(items: Items, todo: seq<Named>, i: nat) {
    && i < |todo| && Wait(items, todo[i].ref) != NoMessage
    && forall j | 0 <= j < i :: Wait(items, todo[j].ref) == NoMessage
  }

  lemma BlockedLater(items: Items, todo: seq<Named>, i: nat)
    requires todo != [] && Wait(items, todo[0].ref) == NoMessage && FirstBlocked(items, todo[1..], i)
    ensures FirstBlocked(items, todo, i + 1) && todo[i + 1] == todo[1..][i]
  {
    assert forall j | 0 < j < |todo| :: todo[j] == todo[1..][j - 1];
  }

  /** A successful resolution has a value for each name: the one reported. */
  lemma LaterNames(todo: seq<Named>, n: Named)
    requires Increasing(todo) && todo != [] && n in todo[1..]
    ensures n in todo && n.name != todo[0].name
  {
    var i :| 0 <= i < |todo[1..]| && todo[1..][i] == n;
    assert todo[i + 1] == n;
    StringLessOrder(todo[0].name, n.name, todo[0].name);
  }

  /** Each name of the list has the reported value; nothing else is added. */
  ghost predicate Reports(items: Items, todo: seq<Named>, values: map<Bytes, Bytes>, r: map<Bytes, Bytes>) {
    && (forall n | n in todo :: n.name in r && Reported(items, n.ref, r[n.name]))
    && (forall name | name in values :: name in r && r[name] == values[name])
    && (forall name | name in r :: name in values || exists n :: n in todo && n.name == name)
  }

  lemma ReportsCons(items: Items, todo: seq<Named>, values: map<Bytes, Bytes>, value: Bytes, r: map<Bytes, Bytes>)
    requires todo != [] && todo[0].name !in values && Reported(items, todo[0].ref, value)
    requires Reports(items, todo[1..], values[todo[0].name := value], r)
    ensures Reports(items, todo, values, r)
  {
    assert todo == [todo[0]] + todo[1..];
  }

  lemma {:induction false} ResolveGivesReported(items: Items, todo: seq<Named>, values: map<Bytes, Bytes>, env: Env)
    requires Increasing(todo) && Resolve(items, todo, values, env).Values?
    requires forall n | n in todo :: n.name !in values
    ensures Reports(items, todo, values, Resolve(items, todo, values, env).values)
    decreases todo
  {
    if todo != [] {
      ResolveNextValue(items, todo, values, env);
      var value := items[todo[0].ref.target].status.observed[todo[0].ref.field];
      forall n | n in todo[1..] ensures n.name !in values[todo[0].name := value] {
        LaterNames(todo, n);
      }
      ResolveGivesReported(items, todo[1..], values[todo[0].name := value], env);
      ReportsCons(items, todo, values, value, Resolve(items, todo, values, env).values);
    }
  }

  /** When references resolve, exactly the declared names have values, each the one its
      target reports. */
  lemma ResolvedValues(items: Items, references: map<Bytes, Reference>, env: Env)
    requires Resolve(items, InNameOrder(references), map[], env).Values?
    ensures
      var values := Resolve(items, InNameOrder(references), map[], env).values;
      && values.Keys == references.Keys
      && forall name | name in references :: Reported(items, references[name], values[name])
  {
    var todo := InNameOrder(references);
    ResolveGivesReported(items, todo, map[], env);
    forall name | name in references
      ensures var values := Resolve(items, todo, map[], env).values;
              name in values && Reported(items, references[name], values[name])
    {
      assert Named(name, references[name]) in todo;
    }
  }

  /** The text of the Spec with every hole filled by the escaped value. */
  function Splice(pieces: seq<Piece>, values: map<Bytes, Bytes>): Bytes
    requires forall name | name in HoleNames(pieces) :: name in values
  {
    if pieces == [] then []
    else
      assert forall name | name in HoleNames(pieces[1..]) :: name in HoleNames(pieces);
      assert pieces[0].Hole? ==> pieces[0].name == HoleNames(pieces)[0];
      (match pieces[0] case Literal(text) => text case Hole(name) => Escape(values[name])) + Splice(pieces[1..], values)
  }

  lemma {:induction false} FilledIsSpliced(pieces: seq<Piece>, values: map<Bytes, Bytes>)
    requires forall name | name in HoleNames(pieces) :: name in values
    ensures FillAll(pieces, values) == Splice(pieces, values)
  {
    if pieces != [] {
      assert forall name | name in HoleNames(pieces[1..]) :: name in HoleNames(pieces);
      assert pieces[0].Hole? ==> pieces[0].name == HoleNames(pieces)[0];
      FilledIsSpliced(pieces[1..], values);
    }
  }

  /** For an accepted Spec, whenever resolution succeeds every token is replaced, once,
      by its target's reported value, and all other bytes stay. */
  lemma AdmissionClosesResolution(items: Items, references: map<Bytes, Reference>, spec: Bytes, env: Env)
    requires Closed(references, spec) && Resolve(items, InNameOrder(references), map[], env).Values?
    ensures forall name | name in HoleNames(Pieces(spec)) :: name in references
    ensures
      var values := Resolve(items, InNameOrder(references), map[], env).values;
      && (forall name | name in references :: name in values && Reported(items, references[name], values[name]))
      && SubstituteReferences(spec, values) == Splice(Pieces(spec), values)
  {
    ResolvedValues(items, references, env);
    var values := Resolve(items, InNameOrder(references), map[], env).values;
    PiecesCoverSpec(spec);
    SubstitutionFillsHoles(spec, values);
    FilledIsSpliced(Pieces(spec), values);
  }

  // The Spec that is converged.

  /** Every reference can be read now: its target is there, Ready, and has the field. */
  ghost predicate Resolvable(items: Items, references: map<Bytes, Reference>) {
    forall name | name in references ::
      var ref := references[name];
      && ref.target in items && items[ref.target].status.ready
      && ref.field in items[ref.target].status.observed && items[ref.target].status.observed[ref.field] != []
  }

  ghost function ReportedValues(items: Items, references: map<Bytes, Reference>): map<Bytes, Bytes>
    requires Resolvable(items, references)
  {
    map name | name in references :: items[references[name].target].status.observed[references[name].field]
  }

  /** The Spec with the tokens of the declared references filled in. */
  ghost function SplicedSpec(items: Items, entry: Resource): Bytes
    requires Resolvable(items, entry.references)
  {
    FillAll(Pieces(entry.spec), ReportedValues(items, entry.references))
  }

  /** What a reference waits for, in this order: its target, that it is Ready, its field. */
  lemma WaitsFor(items: Items, ref: Reference)
    ensures Wait(items, ref) == NoMessage <==> exists value :: Reported(items, ref, value)
    ensures ref.target !in items ==> Wait(items, ref) == NoSuchResource(ref.target)
    ensures ref.target in items && !items[ref.target].status.ready ==> Wait(items, ref) == TargetNotReady(ref.target)
    ensures ref.target in items && items[ref.target].status.ready && Wait(items, ref) != NoMessage ==>
              Wait(items, ref) == FieldNotSet(ref.target, ref.field)
  {
    if ref.target in items && ref.field in items[ref.target].status.observed {
      var value := items[ref.target].status.observed[ref.field];
      assert items[ref.target].status.ready && value != [] ==> Reported(items, ref, value);
    }
  }

  /** With no failing read, the references resolve exactly when all can be read. */
  lemma ResolvesIffResolvable(items: Items, references: map<Bytes, Reference>, env: Env)
    ensures Resolve(items, InNameOrder(references), map[], env).Values? ==> Resolvable(items, references)
    ensures env.faults == {} && Resolvable(items, references) ==> Resolve(items, InNameOrder(references), map[], env).Values?
    ensures env.faults == {} && !Resolvable(items, references) ==> Resolve(items, InNameOrder(references), map[], env).Parked?
  {
    var todo := InNameOrder(references);
    ResolutionVerdict(items, todo, map[], env);
    if Resolve(items, todo, map[], env).Values? {
      ResolvedValues(items, references, env);
    }
    if env.faults == {} {
      NeverBroken(items, todo, map[], env);
      if Resolvable(items, references) {
        forall n | n in todo ensures Wait(items, n.ref) == NoMessage {
          assert n.name in references && references[n.name] == n.ref;
        }
      }
    }
  }

  lemma {:induction false} NeverBroken(items: Items, todo: seq<Named>, values: map<Bytes, Bytes>, env: Env)
    requires env.faults == {}
    ensures !Resolve(items, todo, values, env).Broken?
    decreases todo
  {
    if todo != [] && Wait(items, todo[0].ref) == NoMessage {
      NeverBroken(items, todo[1..], values[todo[0].name := items[todo[0].ref.target].status.observed[todo[0].ref.field]], env);
    }
  }

  /** What is converged is the declared Spec with every token of a declared reference
      replaced by the value its target reports; with nothing declared, the Spec itself. */
  lemma ResolvedIsSpliced(items: Items, entry: Resource, env: Env)
    requires Resolve(items, InNameOrder(entry.references), map[], env).Values?
    ensures Resolvable(items, entry.references)
    ensures
      var values := Resolve(items, InNameOrder(entry.references), map[], env).values;
      && values == ReportedValues(items, entry.references)
      && (Resolved(entry, values).Some? ==> Resolved(entry, values).value == SplicedSpec(items, entry))
      && (Resolved(entry, values).None? <==> entry.references != map[] && !JsonText.ValidJson(SplicedSpec(items, entry)))
    ensures entry.references == map[] ==> SplicedSpec(items, entry) == entry.spec
  {
    var values := Resolve(items, InNameOrder(entry.references), map[], env).values;
    ResolvedValues(items, entry.references, env);
    assert values == ReportedValues(items, entry.references);
    SubstitutionFillsHoles(entry.spec, values);
    if entry.references == map[] {
      assert values == map[];
      PiecesCoverSpec(entry.spec);
    }
  }

  /** `spec` is the text with every hole filled by the escaped value, each having one. */
  ghost predicate SplicedBy(text: Bytes, values: map<Bytes, Bytes>, spec: Bytes) {
    (forall name | name in HoleNames(Pieces(text)) :: name in values) && spec == Splice(Pieces(text), values)
  }

  /** In an accepted Spec no token is left over. */
  lemma AcceptedIsSpliced(items: Items, entry: Resource)
    requires Resolvable(items, entry.references) && Closed(entry.references, entry.spec)
    ensures SplicedBy(entry.spec, ReportedValues(items, entry.references), SplicedSpec(items, entry))
  {
    PiecesCoverSpec(entry.spec);
    FilledIsSpliced(Pieces(entry.spec), ReportedValues(items, entry.references));
  }

  /** ... and inside each string literal they read as what they stand for: a reported
      value is never empty, so it cannot join the halves of a surrogate pair. */
  lemma ResolvedStringsDecode(items: Items, references: map<Bytes, Reference>, body: Bytes, env: Env)
    requires ValidBody(body) && Resolve(items, InNameOrder(references), map[], env).Values?
    ensures
      var values := Resolve(items, InNameOrder(references), map[], env).values;
      Decode(SubstituteReferences(body, values)) == Substitution.MeaningAll(Pieces(body), values)
  {
    ResolvedValues(items, references, env);
    Substitution.SubstitutedStringDecodes(body, Resolve(items, InNameOrder(references), map[], env).values);
  }

  /** With nothing declared, an accepted Spec has no tokens: handing it over as it is
      agrees with substituting. */
  lemma NoReferencesIsIdentity(references: map<Bytes, Reference>, spec: Bytes, values: map<Bytes, Bytes>)
    requires references == map[] && Closed(references, spec)
    ensures (forall at: nat :: !Matches(spec, at)) && SubstituteReferences(spec, values) == spec
  {
    forall at: nat | Matches(spec, at) ensures false {
      EveryTokenIsListed(spec, at);
    }
    UnusedValuesChangeNothing(spec, values);
  }
}
