/** The prepared references of a Run: prepare_references of src/cueflow/reference_preparation.py. */
module ReferencePreparation {
  import opened Outcomes

  /** reference_preparations by round and ordinal: the prepared content, or none when it is unavailable. */
  type Preparations = map<(nat, nat), Option<string>>

  /** An entry of the list that goes to the corrections; its dense ordinal is its place in the list. */
  datatype Reference = Reference(inputOrdinal: nat, prepared: string)

  /** `ORDER BY execution_round DESC LIMIT 1`: the round of the latest row up to this round. */
  function LatestUpTo(rows: Preparations, round: nat, ordinal: nat): (latest: Option<nat>)
    ensures latest.Some? ==> latest.value <= round && (latest.value, ordinal) in rows
    ensures latest.Some? ==> forall later :: latest.value < later <= round ==> (later, ordinal) !in rows
    ensures latest.None? ==> forall some :: 0 <= some <= round ==> (some, ordinal) !in rows
  {
    if (round, ordinal) in rows then Some(round)
    else if round == 0 then None
    else LatestUpTo(rows, round - 1, ordinal)
  }

  /** The row that is used as it is: a success of any round, or any outcome of this one. */
  function Reused(rows: Preparations, round: nat, ordinal: nat): Option<Option<string>> {
    match LatestUpTo(rows, round, ordinal)
    case None => None
    case Some(latest) =>
      if rows[(latest, ordinal)].Some? || latest == round then Some(rows[(latest, ordinal)]) else None
  }

  /** What one turn of the loop uses; `attempt` is what preparing the reference anew would give. */
  function PreparedFor(rows: Preparations, round: nat, ordinal: nat, attempt: Option<string>): Option<string> {
    var reused := Reused(rows, round, ordinal);
    if reused.Some? then reused.value else attempt
  }

  /** `ON CONFLICT DO NOTHING` */
  function WithPreparation(rows: Preparations, round: nat, ordinal: nat, attempt: Option<string>): Preparations {
    if (round, ordinal) in rows then rows
    else rows[(round, ordinal) := PreparedFor(rows, round, ordinal, attempt)]
  }

  predicate AllPrepared(rows: Preparations, round: nat, n: nat) {
    forall ordinal: nat :: ordinal < n ==> (round, ordinal) in rows
  }

  /** The available ones among the first `n` references, as the rows of the round have them. */
  function Effective(rows: Preparations, round: nat, n: nat): seq<Reference> {
    if n == 0 then []
    else
      Effective(rows, round, n - 1)
      + if (round, n - 1) in rows && rows[(round, n - 1)].Some? then [Reference(n - 1, rows[(round, n - 1)].value)]
        else []
  }

  // ----- laws -----

  /** Rows are never changed. */
  predicate Extends(rows: Preparations, more: Preparations) {
    forall k :: k in rows ==> k in more && more[k] == rows[k]
  }

  /** What was prepared once is what every later round uses. */
  ghost predicate Immutable(rows: Preparations) {
    forall k, m :: k in rows && m in rows && k.1 == m.1 && k.0 <= m.0 && rows[k].Some? ==> rows[m] == rows[k]
  }

  ghost predicate UpTo(rows: Preparations, round: nat) {
    forall k :: k in rows ==> k.0 <= round
  }

  lemma {:induction false} PreparingKeeps(rows: Preparations, round: nat, ordinal: nat, attempt: Option<string>)
    requires Immutable(rows) && UpTo(rows, round)
    ensures var after := WithPreparation(rows, round, ordinal, attempt);
      Immutable(after) && UpTo(after, round) && Extends(rows, after) && after.Keys == rows.Keys + {(round, ordinal)}
  {
    var after := WithPreparation(rows, round, ordinal, attempt);
    forall k, m | k in after && m in after && k.1 == m.1 && k.0 <= m.0 && after[k].Some?
      ensures after[m] == after[k]
    {
      if m == (round, ordinal) && m !in rows && k in rows {
        var latest := LatestUpTo(rows, round, ordinal).value;
        assert k.0 <= latest;
        assert rows[(latest, ordinal)] == rows[k];
      }
    }
  }

  /** "A prepared result is immutable": a success of an earlier round is used whatever a new attempt would give. */
  lemma {:induction false} SuccessIsReused(
    rows: Preparations, earlier: nat, round: nat, ordinal: nat, attempt: Option<string>)
    requires Immutable(rows) && earlier <= round && (earlier, ordinal) in rows && rows[(earlier, ordinal)].Some?
    ensures PreparedFor(rows, round, ordinal, attempt) == rows[(earlier, ordinal)]
  {
    var latest := LatestUpTo(rows, round, ordinal).value;
    assert earlier <= latest && rows[(latest, ordinal)] == rows[(earlier, ordinal)];
  }

  /**
   * The row of this round is used as it is, a success of an earlier round is used again, and otherwise the reference
   * is prepared anew: one that was unavailable in an earlier round is tried again.
   */
  lemma {:induction false} PreparedMeans(rows: Preparations, round: nat, ordinal: nat, attempt: Option<string>)
    requires Immutable(rows) && UpTo(rows, round)
    ensures (round, ordinal) in rows ==> PreparedFor(rows, round, ordinal, attempt) == rows[(round, ordinal)]
    ensures forall earlier :: (earlier, ordinal) in rows && rows[(earlier, ordinal)].Some? ==>
              PreparedFor(rows, round, ordinal, attempt) == rows[(earlier, ordinal)]
    ensures (round, ordinal) !in rows
            && (forall earlier :: (earlier, ordinal) in rows ==> rows[(earlier, ordinal)].None?) ==>
              PreparedFor(rows, round, ordinal, attempt) == attempt
  {
    forall earlier: nat | (earlier, ordinal) in rows && rows[(earlier, ordinal)].Some?
      ensures PreparedFor(rows, round, ordinal, attempt) == rows[(earlier, ordinal)]
    {
      SuccessIsReused(rows, earlier, round, ordinal, attempt);
    }
  }

  /** The list holds the available references of the round. */
  lemma {:induction false} EffectiveLists(rows: Preparations, round: nat, n: nat, ordinal: nat, content: string)
    ensures Reference(ordinal, content) in Effective(rows, round, n) <==>
              ordinal < n && (round, ordinal) in rows && rows[(round, ordinal)] == Some(content)
  {
    if n > 0 {
      EffectiveLists(rows, round, n - 1, ordinal, content);
    }
  }

  ghost predicate InOrder(list: seq<Reference>, n: nat) {
    && (forall i :: 0 <= i < |list| ==> list[i].inputOrdinal < n)
    && (forall i, j :: 0 <= i < j < |list| ==> list[i].inputOrdinal < list[j].inputOrdinal)
  }

  /** The list is in the order of the input, and names no reference twice. */
  lemma {:induction false} EffectiveIsInOrder(rows: Preparations, round: nat, n: nat)
    ensures InOrder(Effective(rows, round, n), n)
  {
    if n > 0 {
      EffectiveIsInOrder(rows, round, n - 1);
      var shorter := Effective(rows, round, n - 1);
      if (round, n - 1) in rows && rows[(round, n - 1)].Some? {
        assert InOrder(shorter + [Reference(n - 1, rows[(round, n - 1)].value)], n);
      }
      assert shorter + [] == shorter;
    }
  }

  /** A round whose references are all prepared uses the same ones ever after. */
  lemma {:induction false} EffectiveIsFixed(rows: Preparations, more: Preparations, round: nat, n: nat)
    requires AllPrepared(rows, round, n) && Extends(rows, more)
    ensures AllPrepared(more, round, n) && Effective(more, round, n) == Effective(rows, round, n)
  {
    if n > 0 {
      EffectiveIsFixed(rows, more, round, n - 1);
    }
  }

  lemma {:induction false} OrdinalsAreApart(rows: Preparations, more: Preparations, round: nat, ordinal: nat)
    requires forall k: (nat, nat) :: k.1 == ordinal ==> (k in rows <==> k in more) && (k in rows ==> more[k] == rows[k])
    ensures LatestUpTo(more, round, ordinal) == LatestUpTo(rows, round, ordinal)
  {
    if (round, ordinal) !in rows && round > 0 {
      OrdinalsAreApart(rows, more, round - 1, ordinal);
    }
  }

  /** The rows after the first `n` turns of the loop. */
  function PrepareFirst(rows: Preparations, round: nat, n: nat, attempts: seq<Option<string>>): Preparations
    requires n <= |attempts|
  {
    if n == 0 then rows
    else WithPreparation(PrepareFirst(rows, round, n - 1, attempts), round, n - 1, attempts[n - 1])
  }

  lemma {:induction false} TurnsKeep(rows: Preparations, round: nat, n: nat, attempts: seq<Option<string>>)
    requires n <= |attempts| && Immutable(rows) && UpTo(rows, round)
    ensures var after := PrepareFirst(rows, round, n, attempts);
      && Immutable(after) && UpTo(after, round) && Extends(rows, after)
      && forall k: (nat, nat) :: k in after <==> k in rows || (k.0 == round && k.1 < n)
  {
    hide Immutable, UpTo, WithPreparation, Reused;
    if n > 0 {
      TurnsKeep(rows, round, n - 1, attempts);
      PreparingKeeps(PrepareFirst(rows, round, n - 1, attempts), round, n - 1, attempts[n - 1]);
    }
  }

  /** Each reference of the round has the row that its own turn would give it on the rows before the loop. */
  lemma {:induction false} TurnsAreApart(
    rows: Preparations, round: nat, n: nat, attempts: seq<Option<string>>, ordinal: nat)
    requires ordinal < n <= |attempts| && Immutable(rows) && UpTo(rows, round)
    ensures var after := PrepareFirst(rows, round, n, attempts);
      (round, ordinal) in after && after[(round, ordinal)] == PreparedFor(rows, round, ordinal, attempts[ordinal])
  {
    var before := PrepareFirst(rows, round, n - 1, attempts);
    TurnsKeep(rows, round, n - 1, attempts);
    if ordinal < n - 1 {
      TurnsAreApart(rows, round, n - 1, attempts, ordinal);
    } else {
      OrdinalsAreApart(rows, before, round, ordinal);
    }
  }

  /** What one turn adds to the list. */
  lemma {:induction false} TurnAppends(rows: Preparations, round: nat, n: nat, attempts: seq<Option<string>>)
    requires n < |attempts| && Immutable(rows) && UpTo(rows, round)
    ensures var before, after := PrepareFirst(rows, round, n, attempts), PrepareFirst(rows, round, n + 1, attempts);
      var content := PreparedFor(before, round, n, attempts[n]);
      Effective(after, round, n + 1)
      == Effective(before, round, n) + if content.Some? then [Reference(n, content.value)] else []
  {
    var before, after := PrepareFirst(rows, round, n, attempts), PrepareFirst(rows, round, n + 1, attempts);
    TurnsKeep(rows, round, n, attempts);
    PreparingKeeps(before, round, n, attempts[n]);
    EffectiveIsFixed(before, after, round, n);
  }

  /** prepare_references: the rows it leaves and the list it returns, when it is not cancelled. */
  method PrepareReferences(rows: Preparations, round: nat, n: nat, attempts: seq<Option<string>>)
    returns (after: Preparations, prepared: seq<Reference>)
    requires n <= |attempts| && Immutable(rows) && UpTo(rows, round)
    ensures after == PrepareFirst(rows, round, n, attempts)
    ensures prepared == Effective(after, round, n)
  {
    hide Immutable, UpTo, PreparedFor;
    after, prepared := rows, [];
    for ordinal := 0 to n
      invariant after == PrepareFirst(rows, round, ordinal, attempts)
      invariant prepared == Effective(after, round, ordinal)
    {
      TurnAppends(rows, round, ordinal, attempts);
      var content := PreparedFor(after, round, ordinal, attempts[ordinal]);
      after := WithPreparation(after, round, ordinal, attempts[ordinal]);
      if content.Some? {
        prepared := prepared + [Reference(ordinal, content.value)];
      }
    }
  }
}
