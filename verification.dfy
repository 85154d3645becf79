/**
 * The verification contract: evidence that a user did a quest activity is
 * recorded as a proof, either accepted at once (a ZK Email proof) or left
 * Pending until a registered oracle (a LinkedIn post) or the admin (a manual
 * submission) decides it. Registered oracles carry a reputation and a count
 * of the verdicts they gave. The storage is gathered into a `Ledger` value so
 * that every entry point is specified by a function on that value.
 */
module Verification {
  import opened Common

  datatype VerificationMethod = ZKEmail | LinkedInOracle | Manual

  datatype VerificationStatus = Pending | Verified | Rejected | Expired

  datatype Proof = Proof(
    id: nat,
    questId: nat,
    user: Address,
    kind: VerificationMethod,
    proofHash: Bytes,
    verificationData: string,
    timestamp: nat,
    status: VerificationStatus,
    verifier: Option<Address>)

  datatype Oracle = Oracle(
    address: Address,
    endpoint: string,
    reputation: nat,
    verificationsCount: nat,
    isActive: bool)

  /** One constructor per abort of the contract. */
  datatype VerificationError =
    | OracleNotRegistered
    | OracleNotActive
    | ProofNotFound
    | AlreadyProcessed
    | WrongMethod
    | NotManualProof
    | OracleNotFound

  /** The reputation `register_oracle` gives a new oracle. */
  const InitialReputation: nat := 100

  /** The contract's storage: the admin, the proof counter, the proofs, the two id indexes and the oracles. */
  datatype Ledger = Ledger(
    admin: Address,
    counter: nat,
    proofs: map<nat, Proof>,
    userProofs: map<Address, seq<nat>>,
    questProofs: map<nat, seq<nat>>,
    oracles: map<Address, Oracle>,
    oracleList: seq<Address>)

  /** An index entry, or the empty list when none was stored (`unwrap_or(Vec::new)`). */
  function IdsAt<K>(lists: map<K, seq<nat>>, key: K): seq<nat>
  {
    if key in lists then lists[key] else []
  }

  /** The status a verdict gives a Pending proof. */
  function Verdict(accept: bool): (st: VerificationStatus)
    ensures st == Verified <==> accept
    ensures st == Rejected <==> !accept
  {
    if accept then Verified else Rejected
  }

  // ---------------------------------------------------------------------
  // The storage invariant
  // ---------------------------------------------------------------------

  /**
   * What a stored proof's status and verifier may be: never Expired; a
   * Pending proof has no verifier; a ZK Email proof is Verified without one;
   * a decided LinkedIn proof names a registered oracle and a decided manual
   * proof names the admin.
   */
  ghost predicate ProofShape(p: Proof, admin: Address, oracles: map<Address, Oracle>)
  {
    && p.status != Expired
    && (p.status == Pending ==> p.verifier == None)
    && (p.kind == ZKEmail ==> p.status == Verified && p.verifier == None)
    && (p.kind == LinkedInOracle && p.status != Pending ==> p.verifier.Some? && p.verifier.value in oracles)
    && (p.kind == Manual && p.status != Pending ==> p.verifier == Some(admin))
  }

  /** Each proof is stored under its own id, at most the counter, with an admissible shape. */
  ghost predicate ProofsStored(s: Ledger)
  {
    forall id :: id in s.proofs ==>
      1 <= id <= s.counter && s.proofs[id].id == id && ProofShape(s.proofs[id], s.admin, s.oracles)
  }

  /** The user index names only that user's proofs, the quest index only that quest's. */
  ghost predicate IndexesSound(s: Ledger)
  {
    && (forall u, id :: u in s.userProofs && id in s.userProofs[u] ==> id in s.proofs && s.proofs[id].user == u)
    && (forall q, id :: q in s.questProofs && id in s.questProofs[q] ==> id in s.proofs && s.proofs[id].questId == q)
  }

  /** Every proof is in the index of its user and in that of its quest. */
  ghost predicate ProofsIndexed(s: Ledger)
  {
    forall id :: id in s.proofs ==>
      id in IdsAt(s.userProofs, s.proofs[id].user) && id in IdsAt(s.questProofs, s.proofs[id].questId)
  }

  /**
   * The oracle list names exactly the registered oracles; each record is
   * stored under its own address, and its reputation has risen from 100 by
   * at most one per verdict given.
   */
  ghost predicate OraclesSound(s: Ledger)
  {
    && (forall a :: a in s.oracles <==> a in s.oracleList)
    && (forall a :: a in s.oracles ==>
          && s.oracles[a].address == a
          && InitialReputation <= s.oracles[a].reputation <= InitialReputation + s.oracles[a].verificationsCount)
  }

  ghost predicate Consistent(s: Ledger)
  {
    ProofsStored(s) && IndexesSound(s) && ProofsIndexed(s) && OraclesSound(s)
  }

  // ---------------------------------------------------------------------
  // The entry points on a storage value
  // ---------------------------------------------------------------------

  /** `initialize`: counter zero, no proofs, an empty oracle list. */
  function Initial(admin: Address): (s: Ledger)
    ensures Consistent(s)
    ensures s.proofs == map[] && s.oracles == map[] && s.oracleList == []
  {
    Ledger(admin, 0, map[], map[], map[], map[], [])
  }

  /** `register_oracle`: a fresh record, replacing any earlier one, and the address appended to the list. */
  function RegisterStep(s: Ledger, address: Address, endpoint: string): (t: Ledger)
    ensures t.oracles.Keys == s.oracles.Keys + {address} && |t.oracleList| == |s.oracleList| + 1
    ensures var o := t.oracles[address];
      o.endpoint == endpoint && o.reputation == InitialReputation && o.verificationsCount == 0 && o.isActive
    ensures t.counter == s.counter && t.proofs == s.proofs
  {
    s.(oracles := s.oracles[address := Oracle(address, endpoint, InitialReputation, 0, true)],
       oracleList := s.oracleList + [address])
  }

  /** `create_proof`: the next id, the proof, and the id appended to the user's and to the quest's index. */
  function CreateStep(s: Ledger, questId: nat, user: Address, kind: VerificationMethod, proofHash: Bytes,
                      data: string, status: VerificationStatus, verifier: Option<Address>, now: nat): (t: Ledger)
    ensures t.counter == s.counter + 1 && t.counter in t.proofs
    ensures var p := t.proofs[t.counter];
      p.user == user && p.questId == questId && p.kind == kind && p.status == status && p.verifier == verifier
    ensures IdsAt(t.userProofs, user) == IdsAt(s.userProofs, user) + [t.counter]
    ensures IdsAt(t.questProofs, questId) == IdsAt(s.questProofs, questId) + [t.counter]
    ensures t.oracles == s.oracles && t.oracleList == s.oracleList
  {
    var id := s.counter + 1;
    s.(counter := id,
       proofs := s.proofs[id := Proof(id, questId, user, kind, proofHash, data, now, status, verifier)],
       userProofs := s.userProofs[user := IdsAt(s.userProofs, user) + [id]],
       questProofs := s.questProofs[questId := IdsAt(s.questProofs, questId) + [id]])
  }

  /** The shapes in which the three submission calls create proofs. */
  predicate Submittable(kind: VerificationMethod, status: VerificationStatus, verifier: Option<Address>)
  {
    verifier == None && (if kind == ZKEmail then status == Verified else status == Pending)
  }

  /**
   * `verify_linkedin_post`: the oracle must be registered and active, the
   * proof stored, Pending and a LinkedIn request, checked in that order.
   * The proof takes the verdict, the oracle's data and the oracle as its
   * verifier; the oracle's count rises, and its reputation with a positive verdict.
   */
  function VerifyPost(s: Ledger, proofId: nat, oracle: Address, isValid: bool, proofData: Bytes)
    : (r: Result<Ledger, VerificationError>)
    ensures r.Success? <==>
      && oracle in s.oracles && s.oracles[oracle].isActive
      && proofId in s.proofs && s.proofs[proofId].status == Pending && s.proofs[proofId].kind == LinkedInOracle
    ensures oracle !in s.oracles ==> r == Failure(OracleNotRegistered)
    ensures oracle in s.oracles && !s.oracles[oracle].isActive ==> r == Failure(OracleNotActive)
    ensures oracle in s.oracles && s.oracles[oracle].isActive ==>
      && (proofId !in s.proofs ==> r == Failure(ProofNotFound))
      && (proofId in s.proofs && s.proofs[proofId].status != Pending ==> r == Failure(AlreadyProcessed))
      && (proofId in s.proofs && s.proofs[proofId].status == Pending && s.proofs[proofId].kind != LinkedInOracle ==>
            r == Failure(WrongMethod))
  {
    if oracle !in s.oracles then Failure(OracleNotRegistered)
    else
      var info := s.oracles[oracle];
      if !info.isActive then Failure(OracleNotActive)
      else if proofId !in s.proofs then Failure(ProofNotFound)
      else
        var p := s.proofs[proofId];
        if p.status != Pending then Failure(AlreadyProcessed)
        else if p.kind != LinkedInOracle then Failure(WrongMethod)
        else
          var p' := p.(status := Verdict(isValid), proofHash := proofData, verifier := Some(oracle));
          var info' := info.(verificationsCount := info.verificationsCount + 1,
                             reputation := info.reputation + if isValid then 1 else 0);
          Success(s.(proofs := s.proofs[proofId := p'], oracles := s.oracles[oracle := info']))
  }

  /**
   * `approve_manual_proof`: the proof must be stored, a manual submission
   * and Pending, checked in that order; it takes the verdict and the admin
   * as its verifier.
   */
  function ApproveManual(s: Ledger, proofId: nat, approve: bool): (r: Result<Ledger, VerificationError>)
    ensures r.Success? <==>
      proofId in s.proofs && s.proofs[proofId].kind == Manual && s.proofs[proofId].status == Pending
    ensures proofId !in s.proofs ==> r == Failure(ProofNotFound)
    ensures proofId in s.proofs && s.proofs[proofId].kind != Manual ==> r == Failure(NotManualProof)
    ensures proofId in s.proofs && s.proofs[proofId].kind == Manual && s.proofs[proofId].status != Pending
      ==> r == Failure(AlreadyProcessed)
  {
    if proofId !in s.proofs then Failure(ProofNotFound)
    else
      var p := s.proofs[proofId];
      if p.kind != Manual then Failure(NotManualProof)
      else if p.status != Pending then Failure(AlreadyProcessed)
      else Success(s.(proofs := s.proofs[proofId := p.(status := Verdict(approve), verifier := Some(s.admin))]))
  }

  // ---------------------------------------------------------------------
  // What each step does, and that each keeps the invariant
  // ---------------------------------------------------------------------

  /** Registering gives a fresh record with reputation 100 and no verdicts, and lists the address. */
  lemma RegisterFacts(s: Ledger, address: Address, endpoint: string)
    ensures var t := RegisterStep(s, address, endpoint);
      && address in t.oracles
      && t.oracles[address] == Oracle(address, endpoint, InitialReputation, 0, true)
      && (forall a :: a != address && a in s.oracles ==> a in t.oracles && t.oracles[a] == s.oracles[a])
      && t.oracleList == s.oracleList + [address]
      && t.proofs == s.proofs && t.counter == s.counter
  {
  }

  /**
   * Registering an oracle a second time resets its reputation and its
   * count, and leaves its address twice in the oracle list.
   */
  lemma ReRegisterResets(s: Ledger, address: Address, endpoint: string)
    requires OraclesSound(s)
    requires address in s.oracles
    ensures var t := RegisterStep(s, address, endpoint);
      && t.oracles[address].reputation == InitialReputation
      && t.oracles[address].verificationsCount == 0
      && multiset(t.oracleList)[address] >= 2
  {
    assert address in s.oracleList;
    assert multiset(s.oracleList)[address] >= 1;
  }

  lemma RegisterKeepsConsistent(s: Ledger, address: Address, endpoint: string)
    requires Consistent(s)
    ensures Consistent(RegisterStep(s, address, endpoint))
  {
    var t := RegisterStep(s, address, endpoint);
    assert forall id :: id in t.proofs ==> ProofShape(t.proofs[id], t.admin, t.oracles) by {
      forall id | id in t.proofs
        ensures ProofShape(t.proofs[id], t.admin, t.oracles)
      {
        assert ProofShape(s.proofs[id], s.admin, s.oracles);
      }
    }
  }

  /**
   * Creating takes the next id, stores the proof under it, appends the id to
   * exactly two indexes and changes no earlier proof.
   */
  lemma CreateFacts(s: Ledger, questId: nat, user: Address, kind: VerificationMethod, proofHash: Bytes,
                    data: string, status: VerificationStatus, verifier: Option<Address>, now: nat)
    requires ProofsStored(s)
    ensures var t := CreateStep(s, questId, user, kind, proofHash, data, status, verifier, now);
      var id := s.counter + 1;
      && t.counter == id
      && id !in s.proofs
      && t.proofs[id] == Proof(id, questId, user, kind, proofHash, data, now, status, verifier)
      && (forall k :: k in s.proofs ==> k in t.proofs && t.proofs[k] == s.proofs[k])
      && IdsAt(t.userProofs, user) == IdsAt(s.userProofs, user) + [id]
      && (forall u :: u != user ==> IdsAt(t.userProofs, u) == IdsAt(s.userProofs, u))
      && IdsAt(t.questProofs, questId) == IdsAt(s.questProofs, questId) + [id]
      && (forall q :: q != questId ==> IdsAt(t.questProofs, q) == IdsAt(s.questProofs, q))
      && t.oracles == s.oracles && t.oracleList == s.oracleList
  {
  }

  /** The two indexes stay sound when a proof is created. */
  lemma CreateKeepsIndexes(s: Ledger, questId: nat, user: Address, kind: VerificationMethod, proofHash: Bytes,
                           data: string, status: VerificationStatus, verifier: Option<Address>, now: nat)
    requires ProofsStored(s) && IndexesSound(s)
    ensures IndexesSound(CreateStep(s, questId, user, kind, proofHash, data, status, verifier, now))
  {
    var t := CreateStep(s, questId, user, kind, proofHash, data, status, verifier, now);
    var id := s.counter + 1;
    CreateFacts(s, questId, user, kind, proofHash, data, status, verifier, now);
    forall u, k | u in t.userProofs && k in t.userProofs[u]
      ensures k in t.proofs && t.proofs[k].user == u
    {
      if u != user {
        assert t.userProofs[u] == s.userProofs[u];
      } else if k != id {
        assert k in IdsAt(s.userProofs, user);
      }
    }
    forall q, k | q in t.questProofs && k in t.questProofs[q]
      ensures k in t.proofs && t.proofs[k].questId == q
    {
      if q != questId {
        assert t.questProofs[q] == s.questProofs[q];
      } else if k != id {
        assert k in IdsAt(s.questProofs, questId);
      }
    }
  }

  lemma CreateKeepsConsistent(s: Ledger, questId: nat, user: Address, kind: VerificationMethod, proofHash: Bytes,
                              data: string, status: VerificationStatus, verifier: Option<Address>, now: nat)
    requires Consistent(s)
    requires Submittable(kind, status, verifier)
    ensures Consistent(CreateStep(s, questId, user, kind, proofHash, data, status, verifier, now))
  {
    var t := CreateStep(s, questId, user, kind, proofHash, data, status, verifier, now);
    var id := s.counter + 1;
    CreateFacts(s, questId, user, kind, proofHash, data, status, verifier, now);
    CreateKeepsIndexes(s, questId, user, kind, proofHash, data, status, verifier, now);
    assert ProofsIndexed(t) by {
      forall k | k in t.proofs
        ensures k in IdsAt(t.userProofs, t.proofs[k].user) && k in IdsAt(t.questProofs, t.proofs[k].questId)
      {
        if k != id {
          assert k in IdsAt(s.userProofs, s.proofs[k].user);
          assert k in IdsAt(s.questProofs, s.proofs[k].questId);
        }
      }
    }
  }

  /**
   * Deciding a proof keeps the invariant: the record keeps its id, user and
   * quest, takes an admissible shape, and the oracles keep their addresses.
   */
  lemma ReplaceProofKeepsConsistent(s: Ledger, proofId: nat, p: Proof, oracles: map<Address, Oracle>)
    requires Consistent(s)
    requires proofId in s.proofs
    requires p.id == proofId && p.user == s.proofs[proofId].user && p.questId == s.proofs[proofId].questId
    requires ProofShape(p, s.admin, oracles)
    requires oracles.Keys == s.oracles.Keys
    requires OraclesSound(s.(oracles := oracles))
    ensures Consistent(s.(proofs := s.proofs[proofId := p], oracles := oracles))
  {
    var t := s.(proofs := s.proofs[proofId := p], oracles := oracles);
    assert ProofsStored(t) by {
      forall k | k in t.proofs
        ensures 1 <= k <= t.counter && t.proofs[k].id == k && ProofShape(t.proofs[k], t.admin, t.oracles)
      {
        if k != proofId {
          assert ProofShape(s.proofs[k], s.admin, s.oracles);
        }
      }
    }
    ReplaceProofKeepsIndexes(s, proofId, p, oracles);
    ReplaceProofKeepsIndexed(s, proofId, p, oracles);
  }

  /** The indexes stay sound under a change of record that keeps the proof's user and quest. */
  lemma ReplaceProofKeepsIndexes(s: Ledger, proofId: nat, p: Proof, oracles: map<Address, Oracle>)
    requires IndexesSound(s)
    requires proofId in s.proofs
    requires p.user == s.proofs[proofId].user && p.questId == s.proofs[proofId].questId
    ensures IndexesSound(s.(proofs := s.proofs[proofId := p], oracles := oracles))
  {
    var t := s.(proofs := s.proofs[proofId := p], oracles := oracles);
    assert t.userProofs == s.userProofs && t.questProofs == s.questProofs;
    forall u, k | u in t.userProofs && k in t.userProofs[u]
      ensures k in t.proofs && t.proofs[k].user == u
    {
      assert s.proofs[k].user == u;
    }
    forall q, k | q in t.questProofs && k in t.questProofs[q]
      ensures k in t.proofs && t.proofs[k].questId == q
    {
      assert s.proofs[k].questId == q;
    }
  }

  /** Every proof stays indexed under a change of record that keeps its user and quest. */
  lemma ReplaceProofKeepsIndexed(s: Ledger, proofId: nat, p: Proof, oracles: map<Address, Oracle>)
    requires ProofsIndexed(s)
    requires proofId in s.proofs
    requires p.user == s.proofs[proofId].user && p.questId == s.proofs[proofId].questId
    ensures ProofsIndexed(s.(proofs := s.proofs[proofId := p], oracles := oracles))
  {
    var t := s.(proofs := s.proofs[proofId := p], oracles := oracles);
    assert t.userProofs == s.userProofs && t.questProofs == s.questProofs;
    forall k | k in t.proofs
      ensures k in IdsAt(t.userProofs, t.proofs[k].user) && k in IdsAt(t.questProofs, t.proofs[k].questId)
    {
      assert t.proofs[k].user == s.proofs[k].user && t.proofs[k].questId == s.proofs[k].questId;
    }
  }

  /**
   * A successful `verify_linkedin_post` decides that one proof: its status
   * is Verified exactly when the oracle accepted, its hash is the oracle's
   * data and its verifier the oracle. The oracle's count rises by one and
   * its reputation by one exactly on acceptance; nothing else changes.
   */
  lemma VerifyPostEffect(s: Ledger, proofId: nat, oracle: Address, isValid: bool, proofData: Bytes)
    requires VerifyPost(s, proofId, oracle, isValid, proofData).Success?
    ensures var t := VerifyPost(s, proofId, oracle, isValid, proofData).value;
      var p := s.proofs[proofId];
      var o := s.oracles[oracle];
      && proofId in t.proofs && oracle in t.oracles
      && (t.proofs[proofId].status == Verified <==> isValid)
      && (t.proofs[proofId].status == Rejected <==> !isValid)
      && t.proofs[proofId].proofHash == proofData
      && t.proofs[proofId].verifier == Some(oracle)
      && t.proofs[proofId] == p.(status := t.proofs[proofId].status, proofHash := proofData, verifier := Some(oracle))
      && t.oracles[oracle].verificationsCount == o.verificationsCount + 1
      && t.oracles[oracle].reputation == o.reputation + (if isValid then 1 else 0)
      && t.oracles[oracle] == o.(verificationsCount := t.oracles[oracle].verificationsCount,
                                 reputation := t.oracles[oracle].reputation)
      && t.proofs.Keys == s.proofs.Keys && t.oracles.Keys == s.oracles.Keys
      && (forall k :: k in s.proofs && k != proofId ==> t.proofs[k] == s.proofs[k])
      && (forall a :: a in s.oracles && a != oracle ==> t.oracles[a] == s.oracles[a])
      && t.counter == s.counter && t.userProofs == s.userProofs && t.questProofs == s.questProofs
      && t.oracleList == s.oracleList && t.admin == s.admin
  {
  }

  lemma VerifyPostKeepsConsistent(s: Ledger, proofId: nat, oracle: Address, isValid: bool, proofData: Bytes)
    requires Consistent(s)
    requires VerifyPost(s, proofId, oracle, isValid, proofData).Success?
    ensures Consistent(VerifyPost(s, proofId, oracle, isValid, proofData).value)
  {
    var t := VerifyPost(s, proofId, oracle, isValid, proofData).value;
    VerifyPostEffect(s, proofId, oracle, isValid, proofData);
    ReplaceProofKeepsConsistent(s, proofId, t.proofs[proofId], t.oracles);
  }

  /**
   * A successful `approve_manual_proof` decides that one proof: Verified
   * exactly when approved, with the admin as verifier; nothing else changes.
   */
  lemma ApproveManualEffect(s: Ledger, proofId: nat, approve: bool)
    requires ApproveManual(s, proofId, approve).Success?
    ensures var t := ApproveManual(s, proofId, approve).value;
      var p := s.proofs[proofId];
      && proofId in t.proofs
      && (t.proofs[proofId].status == Verified <==> approve)
      && (t.proofs[proofId].status == Rejected <==> !approve)
      && t.proofs[proofId] == p.(status := t.proofs[proofId].status, verifier := Some(s.admin))
      && t.proofs.Keys == s.proofs.Keys
      && (forall k :: k in s.proofs && k != proofId ==> t.proofs[k] == s.proofs[k])
      && t.counter == s.counter && t.userProofs == s.userProofs && t.questProofs == s.questProofs
      && t.oracles == s.oracles && t.oracleList == s.oracleList && t.admin == s.admin
  {
  }

  lemma ApproveManualKeepsConsistent(s: Ledger, proofId: nat, approve: bool)
    requires Consistent(s)
    requires ApproveManual(s, proofId, approve).Success?
    ensures Consistent(ApproveManual(s, proofId, approve).value)
  {
    var t := ApproveManual(s, proofId, approve).value;
    ApproveManualEffect(s, proofId, approve);
    ReplaceProofKeepsConsistent(s, proofId, t.proofs[proofId], t.oracles);
  }

  /**
   * Decisions are one-shot: once a proof has been decided by an oracle or
   * by the admin, neither call accepts it again.
   */
  lemma DecidedProofIsFinal(s: Ledger, proofId: nat, oracle: Address, isValid: bool, proofData: Bytes,
                            approve: bool, oracle2: Address, isValid2: bool, proofData2: Bytes, approve2: bool)
    ensures VerifyPost(s, proofId, oracle, isValid, proofData).Success? ==>
      var t := VerifyPost(s, proofId, oracle, isValid, proofData).value;
      VerifyPost(t, proofId, oracle2, isValid2, proofData2).Failure? && ApproveManual(t, proofId, approve2).Failure?
    ensures ApproveManual(s, proofId, approve).Success? ==>
      var t := ApproveManual(s, proofId, approve).value;
      VerifyPost(t, proofId, oracle2, isValid2, proofData2).Failure? && ApproveManual(t, proofId, approve2).Failure?
  {
    if VerifyPost(s, proofId, oracle, isValid, proofData).Success? {
      VerifyPostEffect(s, proofId, oracle, isValid, proofData);
    }
    if ApproveManual(s, proofId, approve).Success? {
      ApproveManualEffect(s, proofId, approve);
    }
  }

  /** No step of the contract changes a proof that is no longer Pending. */
  lemma DecidedProofsUnchanged(s: Ledger, proofId: nat, oracle: Address, isValid: bool, proofData: Bytes,
                               approve: bool, questId: nat, user: Address, kind: VerificationMethod,
                               proofHash: Bytes, data: string, status: VerificationStatus, now: nat)
    requires ProofsStored(s)
    ensures forall k :: k in s.proofs && s.proofs[k].status != Pending ==>
      && (VerifyPost(s, proofId, oracle, isValid, proofData).Success? ==>
            VerifyPost(s, proofId, oracle, isValid, proofData).value.proofs[k] == s.proofs[k])
      && (ApproveManual(s, proofId, approve).Success? ==> ApproveManual(s, proofId, approve).value.proofs[k] == s.proofs[k])
      && CreateStep(s, questId, user, kind, proofHash, data, status, None, now).proofs[k] == s.proofs[k]
  {
    CreateFacts(s, questId, user, kind, proofHash, data, status, None, now);
    if VerifyPost(s, proofId, oracle, isValid, proofData).Success? {
      VerifyPostEffect(s, proofId, oracle, isValid, proofData);
    }
    if ApproveManual(s, proofId, approve).Success? {
      ApproveManualEffect(s, proofId, approve);
    }
  }

  // ---------------------------------------------------------------------
  // The contract
  // ---------------------------------------------------------------------

  /** A contract whose storage is a consistent value is valid. */
  lemma StorageValid(c: VerificationContract, s: Ledger)
    requires c.Storage() == s && Consistent(s)
    ensures c.Valid()
  {
  }

  class VerificationContract {
    var admin: Address
    const questContract: Address
    const zkVerifier: Address
    var proofCounter: nat
    var proofs: map<nat, Proof>
    var userProofs: map<Address, seq<nat>>
    var questProofs: map<nat, seq<nat>>
    var oracles: map<Address, Oracle>
    var oracleList: seq<Address>

    function Storage(): Ledger
      reads this
    {
      Ledger(admin, proofCounter, proofs, userProofs, questProofs, oracles, oracleList)
    }

    ghost predicate Valid()
      reads this
    {
      Consistent(Storage())
    }

    /** `initialize`. */
    constructor (admin: Address, questContract: Address, zkVerifier: Address)
      ensures Valid()
      ensures Storage() == Initial(admin)
      ensures this.questContract == questContract && this.zkVerifier == zkVerifier
    {
      this.admin := admin;
      this.questContract := questContract;
      this.zkVerifier := zkVerifier;
      proofCounter := 0;
      proofs := map[];
      userProofs := map[];
      questProofs := map[];
      oracles := map[];
      oracleList := [];
    }

    /** `register_oracle`. */
    method RegisterOracle(address: Address, endpoint: string)
      requires Valid()
      modifies this
      ensures Valid()
      ensures Storage() == RegisterStep(old(Storage()), address, endpoint)
    {
      ghost var before := Storage();
      oracles := oracles[address := Oracle(address, endpoint, InitialReputation, 0, true)];
      oracleList := oracleList + [address];
      RegisterKeepsConsistent(before, address, endpoint);
      StorageValid(this, RegisterStep(before, address, endpoint));
    }

    /** `create_proof`: returns the new proof's id. */
    method CreateProof(questId: nat, user: Address, kind: VerificationMethod, proofHash: Bytes,
                       data: string, status: VerificationStatus, verifier: Option<Address>, now: nat)
      returns (id: nat)
      requires Valid()
      modifies this
      ensures Submittable(kind, status, verifier) ==> Valid()
      ensures id == old(proofCounter) + 1
      ensures Storage() == CreateStep(old(Storage()), questId, user, kind, proofHash, data, status, verifier, now)
    {
      ghost var before := Storage();
      id := proofCounter + 1;
      proofCounter := id;
      proofs := proofs[id := Proof(id, questId, user, kind, proofHash, data, now, status, verifier)];
      userProofs := userProofs[user := IdsAt(userProofs, user) + [id]];
      questProofs := questProofs[questId := IdsAt(questProofs, questId) + [id]];
      ghost var after := CreateStep(before, questId, user, kind, proofHash, data, status, verifier, now);
      assert after.proofs == proofs && after.userProofs == userProofs && after.questProofs == questProofs;
      if Submittable(kind, status, verifier) {
        CreateKeepsConsistent(before, questId, user, kind, proofHash, data, status, verifier, now);
        StorageValid(this, after);
      }
    }

    /** `submit_zk_proof`: the proof is accepted on submission. */
    method SubmitZkProof(questId: nat, user: Address, proofHash: Bytes, data: string, now: nat) returns (id: nat)
      requires Valid()
      modifies this
      ensures Valid()
      ensures id == old(proofCounter) + 1
      ensures Storage() == CreateStep(old(Storage()), questId, user, ZKEmail, proofHash, data, Verified, None, now)
    {
      id := CreateProof(questId, user, ZKEmail, proofHash, data, Verified, None, now);
    }

    /** `request_linkedin_verification`: a Pending request with an empty hash and the post's URL as data. */
    method RequestLinkedInVerification(questId: nat, user: Address, postUrl: string, now: nat) returns (id: nat)
      requires Valid()
      modifies this
      ensures Valid()
      ensures id == old(proofCounter) + 1
      ensures Storage() == CreateStep(old(Storage()), questId, user, LinkedInOracle, [], postUrl, Pending, None, now)
    {
      id := CreateProof(questId, user, LinkedInOracle, [], postUrl, Pending, None, now);
    }

    /** `submit_manual_proof`: a Pending manual submission. */
    method SubmitManualProof(questId: nat, user: Address, proofHash: Bytes, data: string, now: nat) returns (id: nat)
      requires Valid()
      modifies this
      ensures Valid()
      ensures id == old(proofCounter) + 1
      ensures Storage() == CreateStep(old(Storage()), questId, user, Manual, proofHash, data, Pending, None, now)
    {
      id := CreateProof(questId, user, Manual, proofHash, data, Pending, None, now);
    }

    /** `verify_linkedin_post`; an abort leaves the storage as it was. */
    method VerifyLinkedInPost(proofId: nat, oracle: Address, isValid: bool, proofData: Bytes)
      returns (r: Result<(), VerificationError>)
      requires Valid()
      modifies this
      ensures Valid()
      ensures r.Success? <==> VerifyPost(old(Storage()), proofId, oracle, isValid, proofData).Success?
      ensures r.Failure? ==> r.error == VerifyPost(old(Storage()), proofId, oracle, isValid, proofData).error
                             && unchanged(this)
      ensures r.Success? ==> Storage() == VerifyPost(old(Storage()), proofId, oracle, isValid, proofData).value
    {
      if oracle !in oracles {
        return Failure(OracleNotRegistered);
      }
      var info := oracles[oracle];
      if !info.isActive {
        return Failure(OracleNotActive);
      }
      if proofId !in proofs {
        return Failure(ProofNotFound);
      }
      var proof := proofs[proofId];
      if proof.status != Pending {
        return Failure(AlreadyProcessed);
      }
      if proof.kind != LinkedInOracle {
        return Failure(WrongMethod);
      }
      ghost var before := Storage();
      proof := proof.(status := if isValid then Verified else Rejected, proofHash := proofData, verifier := Some(oracle));
      proofs := proofs[proofId := proof];
      info := info.(verificationsCount := info.verificationsCount + 1);
      if isValid {
        info := info.(reputation := info.reputation + 1);
      }
      oracles := oracles[oracle := info];
      ghost var after := VerifyPost(before, proofId, oracle, isValid, proofData).value;
      assert after.proofs == proofs && after.oracles == oracles;
      VerifyPostKeepsConsistent(before, proofId, oracle, isValid, proofData);
      StorageValid(this, after);
      r := Success(());
    }

    /** `approve_manual_proof`; an abort leaves the storage as it was. */
    method ApproveManualProof(proofId: nat, approve: bool) returns (r: Result<(), VerificationError>)
      requires Valid()
      modifies this
      ensures Valid()
      ensures r.Success? <==> ApproveManual(old(Storage()), proofId, approve).Success?
      ensures r.Failure? ==> r.error == ApproveManual(old(Storage()), proofId, approve).error && unchanged(this)
      ensures r.Success? ==> Storage() == ApproveManual(old(Storage()), proofId, approve).value
    {
      if proofId !in proofs {
        return Failure(ProofNotFound);
      }
      var proof := proofs[proofId];
      if proof.kind != Manual {
        return Failure(NotManualProof);
      }
      if proof.status != Pending {
        return Failure(AlreadyProcessed);
      }
      ghost var before := Storage();
      proof := proof.(status := if approve then Verified else Rejected, verifier := Some(admin));
      proofs := proofs[proofId := proof];
      ApproveManualKeepsConsistent(before, proofId, approve);
      StorageValid(this, ApproveManual(before, proofId, approve).value);
      r := Success(());
    }

    /** `get_proof`. */
    function GetProof(proofId: nat): (r: Option<Proof>)
      reads this
      ensures r.Some? <==> proofId in proofs
      ensures r.Some? ==> r.value == proofs[proofId]
      ensures Valid() && r.Some? ==>
        && r.value.id == proofId
        && r.value.status != Expired
        && proofId in GetUserProofs(r.value.user) && proofId in GetQuestProofs(r.value.questId)
    {
      if proofId in proofs then Some(proofs[proofId]) else None
    }

    /** `get_user_proofs`: the user's proof ids, in submission order. */
    function GetUserProofs(user: Address): (ids: seq<nat>)
      reads this
      ensures ids == IdsAt(userProofs, user)
      ensures Valid() ==> forall i :: 0 <= i < |ids| ==> ids[i] in proofs && proofs[ids[i]].user == user
    {
      if user in userProofs then userProofs[user] else []
    }

    /** `get_quest_proofs`: the quest's proof ids, in submission order. */
    function GetQuestProofs(questId: nat): (ids: seq<nat>)
      reads this
      ensures ids == IdsAt(questProofs, questId)
      ensures Valid() ==> forall i :: 0 <= i < |ids| ==> ids[i] in proofs && proofs[ids[i]].questId == questId
    {
      if questId in questProofs then questProofs[questId] else []
    }

    /** `get_oracle`: aborts for an address that never registered. */
    function GetOracle(oracle: Address): (r: Result<Oracle, VerificationError>)
      reads this
      ensures r.Success? <==> oracle in oracles
      ensures r.Success? ==> r.value == oracles[oracle]
      ensures r.Failure? ==> r.error == OracleNotFound
      ensures Valid() && r.Success? ==>
        r.value.address == oracle && oracle in oracleList && r.value.reputation >= InitialReputation
    {
      if oracle in oracles then Success(oracles[oracle]) else Failure(OracleNotFound)
    }
  }

  /**
   * A LinkedIn request, then an oracle verdict on it, then a second verdict
   * on the same request: the first verdict is accepted exactly when the
   * oracle is registered and active, and the second is always refused.
   */
  method LinkedInRoundTrip(c: VerificationContract, questId: nat, user: Address, url: string, now: nat,
                           oracle: Address, v1: bool, d1: Bytes, v2: bool, d2: Bytes)
    returns (id: nat, first: Result<(), VerificationError>, second: Result<(), VerificationError>)
    requires c.Valid()
    modifies c
    ensures first.Success? <==> oracle in old(c.oracles) && old(c.oracles)[oracle].isActive
    ensures second == Failure(AlreadyProcessed) || second == Failure(OracleNotRegistered) || second == Failure(OracleNotActive)
    ensures first.Success? ==> second == Failure(AlreadyProcessed)
    ensures first.Success? ==> id in c.proofs && c.proofs[id].status == (if v1 then Verified else Rejected)
  {
    ghost var s0 := c.Storage();
    CreateFacts(s0, questId, user, LinkedInOracle, [], url, Pending, None, now);
    id := c.RequestLinkedInVerification(questId, user, url, now);
    ghost var s1 := c.Storage();
    first := c.VerifyLinkedInPost(id, oracle, v1, d1);
    if first.Success? {
      VerifyPostEffect(s1, id, oracle, v1, d1);
    }
    second := c.VerifyLinkedInPost(id, oracle, v2, d2);
  }
}
