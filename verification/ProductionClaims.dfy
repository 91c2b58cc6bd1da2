/** The insert-only evidence tables: one-use claims and write-once terminals. A commit whose
    acknowledgement is lost looks like a failure to its caller and has happened all the same. */
module ProductionClaims {
  import opened Outcomes

  datatype Kind = MANUAL_NONCE | TYPED_SIGNING | WIRE_DISPATCH

  /** Digests of canonical records, injective by assumption. */
  type Digest = nat

  datatype ClaimKey = ClaimKey(kind: Kind, namespace: nat, identity: nat)

  datatype Claim = Claim(request: Digest, context: Digest)

  datatype TerminalStatus = COMPLETED | UNRESOLVED

  datatype Terminal = Terminal(request: Digest, status: TerminalStatus, result: Option<Digest>)

  /** The two terminal tables are one map here: the kind is part of the key. */
  datatype Tables = Tables(claims: map<ClaimKey, Claim>, terminals: map<ClaimKey, Terminal>)

  /** What the schema's keys, checks and foreign keys guarantee. */
  ghost predicate Consistent(t: Tables) {
    forall k :: k in t.terminals ==>
      && k.kind != MANUAL_NONCE
      && k in t.claims && t.terminals[k].request == t.claims[k].request
      && (t.terminals[k].status == COMPLETED <==> t.terminals[k].result.Some?)
  }

  /** Rows are only ever added. */
  ghost predicate Grows(a: Tables, b: Tables) {
    && (forall k :: k in a.claims ==> k in b.claims && b.claims[k] == a.claims[k])
    && (forall k :: k in a.terminals ==> k in b.terminals && b.terminals[k] == a.terminals[k])
  }

  /** The committed effect of `claim`: insert on absence. */
  function WithClaim(t: Tables, k: ClaimKey, c: Claim): (after: Tables)
    ensures Grows(t, after) && k in after.claims
    ensures Consistent(t) ==> Consistent(after)
  {
    if k in t.claims then t else t.(claims := t.claims[k := c])
  }

  /** The answer of `claim`: true for the inserting caller, false for a repetition, an error for a rebinding. */
  function ClaimAnswer(t: Tables, k: ClaimKey, c: Claim): Outcome<bool> {
    if k !in t.claims then Done(true)
    else if t.claims[k] == c then Done(false)
    else Raised
  }

  predicate WellFormed(status: TerminalStatus, result: Option<Digest>) {
    status == COMPLETED <==> result.Some?
  }

  predicate MayFinish(t: Tables, k: ClaimKey, c: Claim, status: TerminalStatus, result: Option<Digest>) {
    && k.kind != MANUAL_NONCE && WellFormed(status, result)
    && k in t.claims && t.claims[k] == c
    && (k in t.terminals ==> t.terminals[k].status == status && t.terminals[k].result == result)
  }

  /** The committed effect of `finish_signing_async` and `finish_wire_async`. */
  function WithTerminal(t: Tables, k: ClaimKey, c: Claim, status: TerminalStatus, result: Option<Digest>): (after: Tables)
    ensures Grows(t, after)
    ensures Consistent(t) ==> Consistent(after)
    ensures MayFinish(t, k, c, status, result) ==>
      k in after.terminals && after.terminals[k].status == status && after.terminals[k].result == result
  {
    if MayFinish(t, k, c, status, result) && k !in t.terminals
    then t.(terminals := t.terminals[k := Terminal(c.request, status, result)])
    else t
  }

  datatype Loaded = Loaded(claim: Claim, terminal: Option<Terminal>)

  class PostgresClaims {
    const context: Digest
    var tables: Tables

    constructor (context: Digest)
      ensures this.context == context && Consistent(tables) && tables == Tables(map[], map[])
    {
      this.context, tables := context, Tables(map[], map[]);
    }

    /** `claim`: true proves that this very call inserted the row. */
    method TryClaim(k: ClaimKey, request: Digest) returns (r: Outcome<bool>)
      requires Consistent(tables)
      modifies this
      ensures Consistent(tables) && Grows(old(tables), tables)
      ensures r.Done? ==>
        && tables == WithClaim(old(tables), k, Claim(request, context))
        && r == ClaimAnswer(old(tables), k, Claim(request, context))
      ensures r == Done(true) ==> k !in old(tables).claims && tables.claims[k] == Claim(request, context)
      ensures r.IsFailure() ==> tables in {old(tables), WithClaim(old(tables), k, Claim(request, context))}
    {
      var unavailable: bool := *;
      if unavailable { return Raised; }
      var inserted := k !in tables.claims;
      if inserted {
        tables := tables.(claims := tables.claims[k := Claim(request, context)]);
      } else if tables.claims[k] != Claim(request, context) {
        return Raised;
      }
      var acknowledged: bool := *;
      r := if acknowledged then Done(inserted) else Raised;
    }

    /** `finish_signing_async` and `finish_wire_async`: a normal return proves the terminal on record. */
    method Finish(k: ClaimKey, request: Digest, status: TerminalStatus, result: Option<Digest>) returns (r: Outcome<()>)
      requires Consistent(tables) && k.kind != MANUAL_NONCE
      modifies this
      ensures Consistent(tables) && Grows(old(tables), tables) && tables.claims == old(tables).claims
      ensures tables in {old(tables), WithTerminal(old(tables), k, Claim(request, context), status, result)}
      ensures r.Done? ==>
        && k in tables.terminals && tables.terminals[k] == Terminal(request, status, result)
        && k in old(tables).claims && old(tables).claims[k] == Claim(request, context)
    {
      if !WellFormed(status, result) { return Raised; }
      var unavailable: bool := *;
      if unavailable { return Raised; }
      if k !in tables.claims || tables.claims[k] != Claim(request, context) { return Raised; }
      if k !in tables.terminals {
        tables := tables.(terminals := tables.terminals[k := Terminal(request, status, result)]);
      }
      var terminal := tables.terminals[k];
      if terminal.status != status || terminal.result != result { return Raised; }
      var acknowledged: bool := *;
      r := if acknowledged then Done(()) else Raised;
    }

    /** `load_claim`: the claim with its terminal, refused when it belongs to another context. */
    method Load(k: ClaimKey) returns (r: Outcome<Option<Loaded>>)
      ensures r.Done? && r.value.Some? ==>
        && k in tables.claims && r.value.value.claim == tables.claims[k] && tables.claims[k].context == context
        && r.value.value.terminal == if k in tables.terminals then Some(tables.terminals[k]) else None
      ensures r == Done(None) ==> k !in tables.claims
    {
      var unavailable: bool := *;
      if unavailable { return Raised; }
      if k !in tables.claims { return Done(None); }
      if tables.claims[k].context != context { return Raised; }
      r := Done(Some(Loaded(tables.claims[k], if k in tables.terminals then Some(tables.terminals[k]) else None)));
    }
  }
}
