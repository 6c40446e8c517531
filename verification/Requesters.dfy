/** The canonical proof input of one challenge and one exact batch of channel-secret requesters. */
module Requesters {
  import opened Prelude
  import opened Base64Url
  import opened Capability

  datatype Context = Context(id: string, configPath: string, connectionId: string, channel: string,
                             runtimeAccountId: string, agentId: string, credentialField: string)

  datatype Batch = Batch(challenge: string, processInstanceId: string, requesters: seq<Context>)

  datatype ProofError = InvalidProofInput | DuplicateRequester | InvalidContext

  predicate IsAlnum(c: char) {
    'A' <= c <= 'Z' || 'a' <= c <= 'z' || '0' <= c <= '9'
  }

  predicate IsRuntimeAccountId(s: string) {
    && 1 <= |s| <= 128
    && IsAlnum(s[0])
    && forall i :: 1 <= i < |s| ==> IsAlnum(s[i]) || s[i] == '.' || s[i] == '_' || s[i] == '-'
  }

  predicate IsChallenge(s: string) {
    |s| == 43 && AllDigits(s)
  }

  function ContextParts(c: Context): seq<string> {
    [c.id, c.configPath, c.connectionId, c.channel, c.runtimeAccountId, c.agentId, c.credentialField]
  }

  predicate ValidContext(c: Context) {
    && AllParts(ContextParts(c))
    && c.configPath == "channels." + c.channel + ".accounts." + c.runtimeAccountId + "." + c.credentialField
    && c.credentialField == (if c.channel == "discord" then "token" else "botToken")
    && IsUuid(c.connectionId)
    && IsRuntimeAccountId(c.runtimeAccountId)
    && IsRuntimeAccountId(c.agentId)
  }

  predicate DistinctIds(requesters: seq<Context>) {
    forall i, j :: 0 <= i < j < |requesters| ==> requesters[i].id != requesters[j].id
  }

  predicate ContextsValid(requesters: seq<Context>) {
    requesters == [] || (ContextsValid(requesters[..|requesters| - 1]) && ValidContext(requesters[|requesters| - 1]))
  }

  predicate ValidBatch(b: Batch) {
    && IsChallenge(b.challenge)
    && IsUuid(b.processInstanceId)
    && 1 <= |b.requesters| <= 128
    && DistinctIds(b.requesters)
    && ContextsValid(b.requesters)
  }

  function AllContextParts(requesters: seq<Context>): seq<string> {
    if requesters == [] then []
    else AllContextParts(requesters[..|requesters| - 1]) + ContextParts(requesters[|requesters| - 1])
  }

  function BatchParts(b: Batch): seq<string> {
    [REQUESTER_DOMAIN, b.challenge, b.processInstanceId] + AllContextParts(b.requesters)
  }

  function Ids(requesters: seq<Context>): set<string> {
    set i | 0 <= i < |requesters| :: requesters[i].id
  }

  lemma IdsExtend(front: seq<Context>, next: Context)
    ensures Ids(front + [next]) == Ids(front) + {next.id}
  {
    var all := front + [next];
    assert all[|front|] == next;
    assert forall i :: 0 <= i < |front| ==> all[i] == front[i];
  }

  lemma DistinctExtends(front: seq<Context>, next: Context)
    ensures DistinctIds(front + [next]) <==> DistinctIds(front) && next.id !in Ids(front)
  {
    var all := front + [next];
    assert all[|front|] == next;
    assert forall i :: 0 <= i < |front| ==> all[i] == front[i];
    if next.id in Ids(front) {
      var i :| 0 <= i < |front| && front[i].id == next.id;
      assert all[i].id == all[|front|].id;
    }
  }

  lemma RepeatPersists(requesters: seq<Context>, k: nat)
    requires k <= |requesters| && !DistinctIds(requesters[..k])
    ensures !DistinctIds(requesters)
  {
    var i, j :| 0 <= i < j < k && requesters[..k][i].id == requesters[..k][j].id;
    assert requesters[i].id == requesters[j].id;
  }

  lemma PartsExtend(front: seq<Context>, next: Context)
    ensures AllContextParts(front + [next]) == AllContextParts(front) + ContextParts(next)
    ensures ContextsValid(front + [next]) <==> ContextsValid(front) && ValidContext(next)
  {
    assert (front + [next])[..|front|] == front;
  }

  lemma {:induction false} ValidPrefix(requesters: seq<Context>, k: nat)
    requires k <= |requesters| && ContextsValid(requesters)
    ensures ContextsValid(requesters[..k])
  {
    if k < |requesters| {
      ValidPrefix(requesters[..|requesters| - 1], k);
      assert requesters[..|requesters| - 1][..k] == requesters[..k];
    } else {
      assert requesters[..k] == requesters;
    }
  }

  /** Collects the batch part by part, refusing at the first duplicate id or invalid context. */
  method CollectParts(requesters: seq<Context>) returns (reply: Result<seq<string>, ProofError>)
    ensures reply.Ok? <==> DistinctIds(requesters) && ContextsValid(requesters)
    ensures reply.Ok? ==> reply.value == AllContextParts(requesters)
    ensures reply.Err? ==> exists k ::
              && 0 <= k < |requesters| && DistinctIds(requesters[..k]) && ContextsValid(requesters[..k])
              && match reply.error
                 case DuplicateRequester => requesters[k].id in Ids(requesters[..k])
                 case InvalidContext => requesters[k].id !in Ids(requesters[..k]) && !ValidContext(requesters[k])
                 case _ => false
  {
    var parts := [];
    var ids: set<string> := {};
    for k := 0 to |requesters|
      invariant parts == AllContextParts(requesters[..k])
      invariant ids == Ids(requesters[..k])
      invariant DistinctIds(requesters[..k])
      invariant ContextsValid(requesters[..k])
    {
      var requester := requesters[k];
      assert requesters[..k + 1] == requesters[..k] + [requester];
      DistinctExtends(requesters[..k], requester);
      if requester.id in ids {
        RepeatPersists(requesters, k + 1);
        return Err(DuplicateRequester);
      }
      IdsExtend(requesters[..k], requester);
      ids := ids + {requester.id};
      PartsExtend(requesters[..k], requester);
      if !ValidContext(requester) {
        if ContextsValid(requesters) {
          ValidPrefix(requesters, k + 1);
        }
        return Err(InvalidContext);
      }
      parts := parts + ContextParts(requester);
    }
    assert requesters[..|requesters|] == requesters;
    reply := Ok(parts);
  }

  method CanonicalProofInput(b: Batch) returns (reply: Result<string, ProofError>)
    ensures reply.Ok? <==> ValidBatch(b)
    ensures reply.Ok? ==> reply.value == JoinNul(BatchParts(b))
    ensures reply == Err(InvalidProofInput) <==>
            !IsChallenge(b.challenge) || !IsUuid(b.processInstanceId) || b.requesters == [] || |b.requesters| > 128
  {
    if !IsChallenge(b.challenge) || !IsUuid(b.processInstanceId) || |b.requesters| < 1 || |b.requesters| > 128 {
      return Err(InvalidProofInput);
    }
    var collected := CollectParts(b.requesters);
    if collected.Err? {
      return Err(collected.error);
    }
    reply := Ok(JoinNul([REQUESTER_DOMAIN, b.challenge, b.processInstanceId] + collected.value));
  }

  lemma {:induction false} ContextPartsShape(requesters: seq<Context>)
    requires ContextsValid(requesters)
    ensures |AllContextParts(requesters)| == 7 * |requesters|
    ensures AllParts(AllContextParts(requesters))
  {
    if requesters != [] {
      ContextPartsShape(requesters[..|requesters| - 1]);
    }
  }

  lemma ContextPartsInjective(a: Context, b: Context)
    requires ContextParts(a) == ContextParts(b)
    ensures a == b
  {
    var p, q := ContextParts(a), ContextParts(b);
    assert p[0] == q[0] && p[1] == q[1] && p[2] == q[2] && p[3] == q[3];
    assert p[4] == q[4] && p[5] == q[5] && p[6] == q[6];
  }

  lemma {:induction false} AllContextPartsInjective(a: seq<Context>, b: seq<Context>)
    requires |a| == |b| && AllContextParts(a) == AllContextParts(b)
    ensures a == b
  {
    if a != [] {
      var n := |a| - 1;
      var p, q := AllContextParts(a), AllContextParts(b);
      assert p[|p| - 7..] == ContextParts(a[n]) && q[|q| - 7..] == ContextParts(b[n]);
      ContextPartsInjective(a[n], b[n]);
      assert p[..|p| - 7] == AllContextParts(a[..n]) && q[..|q| - 7] == AllContextParts(b[..n]);
      AllContextPartsInjective(a[..n], b[..n]);
      assert a == a[..n] + [a[n]] && b == b[..n] + [b[n]];
    }
  }

  lemma BatchPartsAreParts(b: Batch)
    requires ValidBatch(b)
    ensures AllParts(BatchParts(b)) && |BatchParts(b)| == 3 + 7 * |b.requesters|
  {
    ContextPartsShape(b.requesters);
    assert '\0' !in b.challenge;
    assert '\0' !in b.processInstanceId by {
      assert forall i :: 0 <= i < |b.processInstanceId| ==> IsUuidChar(i, b.processInstanceId[i]);
    }
  }

  /** The canonical text of a batch of any size determines the whole batch. */
  lemma BatchTextInjective(a: Batch, b: Batch)
    requires ValidBatch(a) && ValidBatch(b)
    requires JoinNul(BatchParts(a)) == JoinNul(BatchParts(b))
    ensures a == b
  {
    BatchPartsAreParts(a);
    BatchPartsAreParts(b);
    var p, q := BatchParts(a), BatchParts(b);
    JoinNulInjective(p, q);
    assert p[1] == q[1] && p[2] == q[2];
    assert p[3..] == AllContextParts(a.requesters) && q[3..] == AllContextParts(b.requesters);
    AllContextPartsInjective(a.requesters, b.requesters);
  }

  lemma {:induction false} ContextPartAt(requesters: seq<Context>, k: nat)
    requires k < |requesters|
    ensures |AllContextParts(requesters)| == 7 * |requesters|
    ensures AllContextParts(requesters)[7 * k..7 * k + 7] == ContextParts(requesters[k])
  {
    var n := |requesters| - 1;
    var front := AllContextParts(requesters[..n]);
    if n > 0 {
      ContextPartAt(requesters[..n], if k < n then k else 0);
    }
    assert |front| == 7 * n;
    var parts := front + ContextParts(requesters[n]);
    if k < n {
      assert parts[7 * k..7 * k + 7] == front[7 * k..7 * k + 7];
    } else {
      assert parts[7 * k..] == ContextParts(requesters[n]);
    }
  }

  /** The parts of a proof input: the domain, the challenge, the process, and then seven for each requester in turn. */
  lemma BatchPartsAt(b: Batch, k: nat)
    requires k < |b.requesters|
    ensures var parts, c := BatchParts(b), b.requesters[k];
            && |parts| == 3 + 7 * |b.requesters|
            && parts[..3] == ["eden3-channel-request-v2", b.challenge, b.processInstanceId]
            && parts[3 + 7 * k..10 + 7 * k] ==
               [c.id, c.configPath, c.connectionId, c.channel, c.runtimeAccountId, c.agentId, c.credentialField]
  {
    ContextPartAt(b.requesters, k);
    assert BatchParts(b)[3 + 7 * k..10 + 7 * k] == AllContextParts(b.requesters)[7 * k..7 * k + 7];
  }

  /** No proof input is ever the text of a capability: the two domains keep them apart. */
  lemma DomainsAreApart(b: Batch, scope: Scope)
    requires ValidBatch(b) && CanonicalScope(scope).Some?
    ensures JoinNul(BatchParts(b)) != CanonicalScope(scope).value
  {
    BatchPartsAreParts(b);
    assert BatchParts(b)[0][14] == 'r' && ScopeParts(scope)[0][14] == 'c';
    if JoinNul(BatchParts(b)) == JoinNul(ScopeParts(scope)) {
      JoinNulInjective(BatchParts(b), ScopeParts(scope));
      assert false;
    }
  }

  /** What one requester of a batch must look like: its path names its channel, its account there and its field. */
  predicate Admissible(c: Context) {
    && IsPart(c.id) && IsPart(c.configPath) && IsPart(c.connectionId) && IsPart(c.channel)
    && IsPart(c.runtimeAccountId) && IsPart(c.agentId) && IsPart(c.credentialField)
    && IsUuid(c.connectionId) && IsRuntimeAccountId(c.runtimeAccountId) && IsRuntimeAccountId(c.agentId)
    && (c.channel == "discord" ==> c.configPath == "channels.discord.accounts." + c.runtimeAccountId + ".token" && c.credentialField == "token")
    && (c.channel != "discord" ==>
          c.configPath == "channels." + c.channel + ".accounts." + c.runtimeAccountId + ".botToken" && c.credentialField == "botToken")
  }

  lemma ValidIsAdmissible(c: Context)
    ensures ValidContext(c) <==> Admissible(c)
  {
    var parts := ContextParts(c);
    assert AllParts(parts) <==> IsPart(parts[0]) && IsPart(parts[1]) && IsPart(parts[2]) && IsPart(parts[3]) && IsPart(parts[4]) &&
                                IsPart(parts[5]) && IsPart(parts[6]);
    if c.channel == "discord" {
      assert "channels." + "discord" + ".accounts." == "channels.discord.accounts.";
      assert "." + "token" == ".token";
      assert "channels." + c.channel + ".accounts." + c.runtimeAccountId + "." + "token" ==
             "channels." + c.channel + ".accounts." + c.runtimeAccountId + ("." + "token");
    } else {
      assert "." + "botToken" == ".botToken";
      assert "channels." + c.channel + ".accounts." + c.runtimeAccountId + "." + "botToken" ==
             "channels." + c.channel + ".accounts." + c.runtimeAccountId + ("." + "botToken");
    }
  }

  lemma {:induction false} AllAdmissible(requesters: seq<Context>)
    ensures ContextsValid(requesters) <==> forall k :: 0 <= k < |requesters| ==> Admissible(requesters[k])
  {
    if requesters != [] {
      var n := |requesters| - 1;
      AllAdmissible(requesters[..n]);
      ValidIsAdmissible(requesters[n]);
      assert forall k :: 0 <= k < n ==> requesters[..n][k] == requesters[k];
    }
  }

  /** Exactly these batches have a proof input. */
  lemma ValidBatchIff(b: Batch)
    ensures ValidBatch(b) <==>
            && |b.challenge| == 43 && AllDigits(b.challenge) && IsUuid(b.processInstanceId)
            && 1 <= |b.requesters| <= 128
            && (forall i, j :: 0 <= i < j < |b.requesters| ==> b.requesters[i].id != b.requesters[j].id)
            && forall k :: 0 <= k < |b.requesters| ==> Admissible(b.requesters[k])
  {
    AllAdmissible(b.requesters);
  }
}
