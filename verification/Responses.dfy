/** Chunked responses: the spilled lines of a client, joined in batches, streamed behind a header with
    one chunk of look-ahead so that only the final response is marked last. */
module Responses {
  import opened Common
  import opened Batching

  datatype Response = Response(client: ClientId, body: string, last: bool)

  function Bodies(rs: seq<Response>): (bodies: seq<string>)
    ensures |bodies| == |rs|
    ensures forall i :: 0 <= i < |rs| ==> bodies[i] == rs[i].body
  {
    seq(|rs|, i requires 0 <= i < |rs| => rs[i].body)
  }

  /** Cuts the lines into chunks of the given number of lines, the last possibly shorter; no chunk is
      made of no line. `groups` are the lines of each chunk. */
  method IterChunks(lines: seq<string>, batchLines: int) returns (chunks: seq<string>, ghost groups: seq<seq<string>>)
    ensures Flatten(groups) == lines && Batched(groups, batchLines)
    ensures |chunks| == |groups| && forall i :: 0 <= i < |chunks| ==> chunks[i] == Flatten(groups[i])
    ensures Flatten(chunks) == Flatten(lines)
    ensures chunks == [] <==> lines == []
  {
    chunks, groups := [], [];
    var batch: seq<string> := [];
    var i := 0;
    NothingYet(batchLines);
    hide Filling, Joined, Flatten;
    assert lines[..0] == [];
    while i < |lines|
      invariant 0 <= i <= |lines|
      invariant Filling(groups, batch, batchLines, lines[..i]) && Joined(chunks, groups)
    {
      assert lines[..i + 1] == lines[..i] + [lines[i]];
      FillingPush(groups, batch, batchLines, lines[..i], lines[i]);
      batch := batch + [lines[i]];
      if |batch| >= batchLines {
        JoinedMore(chunks, groups, batch);
        chunks, groups := chunks + [Flatten(batch)], groups + [batch];
        batch := [];
      }
      i := i + 1;
    }
    assert lines[..i] == lines;
    Remaining(groups, batch, batchLines, lines);
    if batch != [] {
      JoinedMore(chunks, groups, batch);
      chunks, groups := chunks + [Flatten(batch)], groups + [batch];
    }
    JoinedAll(chunks, groups, batchLines);
  }

  lemma NothingYet(size: int)
    ensures Filling<string>([], [], size, []) && Joined([], [])
  {}

  lemma Remaining(groups: seq<seq<string>>, batch: seq<string>, size: int, lines: seq<string>)
    requires Filling(groups, batch, size, lines)
    ensures var all := if batch == [] then groups else groups + [batch];
            Flatten(all) == lines && Batched(all, size)
  {
    if batch != [] {
      FlattenSnoc(groups, batch);
    }
  }

  /** Each chunk is its group of lines, joined. */
  ghost predicate Joined(chunks: seq<string>, groups: seq<seq<string>>) {
    && |chunks| == |groups| && (forall i :: 0 <= i < |chunks| ==> chunks[i] == Flatten(groups[i]))
    && Flatten(chunks) == Flatten(Flatten(groups))
  }

  lemma JoinedMore(chunks: seq<string>, groups: seq<seq<string>>, group: seq<string>)
    requires Joined(chunks, groups)
    ensures Joined(chunks + [Flatten(group)], groups + [group])
  {
    FlattenSnoc(chunks, Flatten(group));
    FlattenSnoc(groups, group);
    FlattenConcat(Flatten(groups), group);
  }

  lemma JoinedAll(chunks: seq<string>, groups: seq<seq<string>>, size: int)
    requires Joined(chunks, groups) && Batched(groups, size)
    ensures |chunks| == |groups| && forall i :: 0 <= i < |chunks| ==> chunks[i] == Flatten(groups[i])
    ensures Flatten(chunks) == Flatten(Flatten(groups))
    ensures chunks == [] <==> Flatten(groups) == []
  {
    if groups != [] {
      assert groups[0] != [];
    }
  }

  ghost predicate OnlyFinalIsLast(rs: seq<Response>) {
    rs != [] && forall i :: 0 <= i < |rs| ==> (rs[i].last <==> i == |rs| - 1)
  }

  /** Nothing is lost or reordered, and exactly one response, the final one, is marked last. */
  method StreamResponses(client: ClientId, header: string, lines: seq<string>, batchLines: int)
    returns (rs: seq<Response>)
    ensures Flatten(Bodies(rs)) == header + Flatten(lines) + "\n"
    ensures OnlyFinalIsLast(rs)
    ensures forall r :: r in rs ==> r.client == client
  {
    ghost var groups;
    var chunks;
    chunks, groups := IterChunks(lines, batchLines);
    if chunks == [] {
      NothingSent();
      BodySent([], Response(client, header + "\n", true));
      assert header + [] + "\n" == header + "\n" == "" + (header + "\n");
      assert [] + [Response(client, header + "\n", true)] == [Response(client, header + "\n", true)];
      rs := [Response(client, header + "\n", true)];
    } else {
      hide Flatten, Bodies, Batched, OnlyFinalIsLast;
      rs := SendChunks(client, header, chunks);
    }
  }

  lemma NothingSent()
    ensures Flatten(Bodies([])) == "" && Flatten<char>([]) == ""
  {}

  /** A chunk is sent once the next one is there: the last is only known at the end. */
  method SendChunks(client: ClientId, header: string, chunks: seq<string>) returns (rs: seq<Response>)
    requires chunks != []
    ensures Flatten(Bodies(rs)) == header + Flatten(chunks) + "\n"
    ensures OnlyFinalIsLast(rs)
    ensures forall r :: r in rs ==> r.client == client
  {
    hide Flatten, Bodies;
    var prev := header + chunks[0];
    rs := [];
    var i := 1;
    NothingSent();
    FlattenSnoc<char>([], chunks[0]);
    assert chunks[..1] == [] + [chunks[0]];
    while i < |chunks|
      invariant 1 <= i <= |chunks|
      invariant Flatten(Bodies(rs)) + prev == header + Flatten(chunks[..i])
      invariant forall k :: 0 <= k < |rs| ==> rs[k].client == client && !rs[k].last
    {
      assert chunks[..i + 1] == chunks[..i] + [chunks[i]];
      FlattenSnoc(chunks[..i], chunks[i]);
      BodySent(rs, Response(client, prev, false));
      rs := rs + [Response(client, prev, false)];
      prev := chunks[i];
      i := i + 1;
    }
    assert chunks[..i] == chunks;
    BodySent(rs, Response(client, prev + "\n", true));
    assert Flatten(Bodies(rs)) + (prev + "\n") == header + Flatten(chunks) + "\n";
    rs := rs + [Response(client, prev + "\n", true)];
  }

  lemma BodySent(rs: seq<Response>, r: Response)
    ensures Flatten(Bodies(rs + [r])) == Flatten(Bodies(rs)) + r.body
  {
    assert Bodies(rs + [r]) == Bodies(rs) + [r.body];
    FlattenSnoc(Bodies(rs), r.body);
  }
}
