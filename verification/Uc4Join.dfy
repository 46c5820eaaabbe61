/** UC4Join: collects the qualifying paths and answers with the accounts at their ends. */
module Uc4Join {
  import opened Common
  import opened Spill
  import opened Uc4Graph
  import opened PathLedger

  ghost function PathsOf(msgs: seq<PathCounts>): set<Path> {
    set m, p | m in msgs && p in m.counts :: p
  }

  class UC4Join {
    var responses: map<ClientId, PathDict>
    ghost var history: map<ClientId, seq<PathCounts>>

    ghost predicate Valid()
      reads this
    {
      forall cl :: DictAt(responses, cl).Keys == PathsOf(SeqAt(history, cl))
    }

    constructor ()
      ensures Valid() && history == map[]
    {
      responses, history := map[], map[];
    }

    method Join(el: PathCounts)
      requires Valid()
      modifies this
      ensures Valid()
      ensures history == old(history)[el.client := old(SeqAt(history, el.client)) + [el]]
    {
      ghost var before := SeqAt(history, el.client);
      responses := responses[el.client := DictAt(responses, el.client) + el.counts];
      history := history[el.client := before + [el]];
      PathsOfSnoc(before, el);
      hide PathsOf;
      forall cl ensures DictAt(responses, cl).Keys == PathsOf(SeqAt(history, cl)) {
        assert DictAt(old(responses), cl).Keys == PathsOf(SeqAt(old(history), cl));
      }
    }

    lemma PathsOfSnoc(msgs: seq<PathCounts>, m: PathCounts)
      ensures PathsOf(msgs + [m]) == PathsOf(msgs) + m.counts.Keys
    {
      forall p ensures p in PathsOf(msgs + [m]) <==> p in PathsOf(msgs) || p in m.counts {
        assert m in msgs + [m];
        assert forall x :: x in msgs + [m] <==> x in msgs || x == m;
      }
    }

    /** The accounts named in the response, which empties the client's dictionary. */
    method GetResponse(client: ClientId) returns (accounts: set<Node>)
      requires Valid()
      modifies this
      ensures Valid() && history == old(history)[client := []]
      ensures EndpointsOf(accounts, iset p | p in PathsOf(old(SeqAt(history, client))))
    {
      accounts := Endpoints(DictAt(responses, client).Keys);
      assert PathsOf([]) == {};
      hide PathsOf;
      responses := responses - {client};
      history := history[client := []];
      forall cl ensures DictAt(responses, cl).Keys == PathsOf(SeqAt(history, cl)) {
        assert DictAt(old(responses), cl).Keys == PathsOf(SeqAt(old(history), cl));
      }
    }
  }
}
