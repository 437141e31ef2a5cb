/**
 * The priority ledger (`priority_dict`): per participant, the number of
 * boosted votes still owed to them after a paid "priority" action.
 */
module PriorityLedger {

  /** One `priority_dict` value: `{"n": ..., "login_name": ...}`. */
  datatype Entry = Entry(n: int, loginName: string)

  type Ledger = map<string, Entry>

  /** Votes still owed to `id`; zero when there is no entry. */
  function Balance(l: Ledger, id: string): int {
    if id in l then l[id].n else 0
  }

  /** Every entry owes at least one vote: entries that reach zero are deleted. */
  ghost predicate Positive(l: Ledger) {
    forall id :: id in l ==> l[id].n >= 1
  }

  /**
   * A paid "priority" action: create the entry with `votes`, or add `votes`
   * to an existing one (keeping the name it was created with).
   */
  function Grant(l: Ledger, id: string, name: string, votes: int): (r: Ledger)
    ensures r.Keys == l.Keys + {id}
    ensures Balance(r, id) == Balance(l, id) + votes
    ensures id in l ==> r[id].loginName == l[id].loginName
    ensures id !in l ==> r[id].loginName == name
    ensures forall k :: k in l && k != id ==> r[k] == l[k]
  {
    if id !in l then l[id := Entry(votes, name)]
    else l[id := l[id].(n := l[id].n + votes)]
  }

  /**
   * An accepted submission from `id` uses one owed vote: the count drops by
   * one and the entry is deleted when it reaches zero. No entry, no change.
   */
  function Consume(l: Ledger, id: string): (r: Ledger)
    ensures id !in l ==> r == l
    ensures id in l ==> Balance(r, id) == Balance(l, id) - 1
    ensures id in l ==> (id in r <==> l[id].n != 1)
    ensures r.Keys <= l.Keys
    ensures forall k :: k in l && k != id ==> k in r && r[k] == l[k]
  {
    if id !in l then l
    else
      var left := l[id].n - 1;
      if left == 0 then l - {id} else l[id := l[id].(n := left)]
  }

  /** Deleting entries at zero keeps every remaining entry positive. */
  lemma ConsumeKeepsPositive(l: Ledger, id: string)
    requires Positive(l)
    ensures Positive(Consume(l, id))
  {
  }

  /** Granting a positive number of votes keeps the ledger positive. */
  lemma GrantKeepsPositive(l: Ledger, id: string, name: string, votes: int)
    requires Positive(l) && 1 <= votes
    ensures Positive(Grant(l, id, name, votes))
  {
  }

  /** `k` accepted submissions from the same participant. */
  function ConsumeTimes(l: Ledger, id: string, k: nat): Ledger
    decreases k
  {
    if k == 0 then l else ConsumeTimes(Consume(l, id), id, k - 1)
  }

  /**
   * In a positive ledger a participant with balance `b` keeps the boost for
   * exactly `b` accepted submissions: after `k <= b` of them the balance is
   * `b - k`, and the entry exists exactly while that is positive.
   */
  lemma {:induction false} ConsumeTimesBalance(l: Ledger, id: string, k: nat)
    requires Positive(l)
    requires k <= Balance(l, id)
    ensures Positive(ConsumeTimes(l, id, k))
    ensures Balance(ConsumeTimes(l, id, k), id) == Balance(l, id) - k
    ensures id in ConsumeTimes(l, id, k) <==> k < Balance(l, id)
    decreases k
  {
    if k > 0 {
      ConsumeKeepsPositive(l, id);
      ConsumeTimesBalance(Consume(l, id), id, k - 1);
    }
  }

  /**
   * A grant of `votes` to a participant without an entry boosts exactly the
   * next `votes` accepted submissions: the entry is present after `k < votes`
   * of them and gone after `votes`.
   */
  lemma GrantLastsExactly(l: Ledger, id: string, name: string, votes: int, k: nat)
    requires Positive(l) && id !in l
    requires 1 <= votes && k <= votes
    ensures id in ConsumeTimes(Grant(l, id, name, votes), id, k) <==> k < votes
  {
    GrantKeepsPositive(l, id, name, votes);
    ConsumeTimesBalance(Grant(l, id, name, votes), id, k);
  }

  /** Five priority votes: one submission leaves four, five remove the entry. */
  lemma FiveVoteScenario(l: Ledger, id: string, name: string)
    requires Positive(l) && id !in l
    ensures Balance(Consume(Grant(l, id, name, 5), id), id) == 4
    ensures id !in ConsumeTimes(Grant(l, id, name, 5), id, 5)
  {
  }
}
