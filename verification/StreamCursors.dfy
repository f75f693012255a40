/** StreamCursorVector::new: a cursor for each of some partitions of one stream. */
module StreamCursors {

  datatype Cursor = Cursor(cluster: nat, stream: nat, partition: nat, next: nat)

  datatype Vector = Vector(cluster: nat, stream: nat, positions: seq<Cursor>)

  datatype Reason = Empty | OtherCluster | OtherStream | RepeatedPartition

  datatype Result = Ok(vector: Vector) | InvalidRange(reason: Reason)

  /** One cluster, one stream, no partition twice. */
  ghost predicate Coherent(stream: nat, positions: seq<Cursor>)
  {
    && (forall i :: 0 <= i < |positions| ==> positions[i].cluster == positions[0].cluster && positions[i].stream == stream)
    && (forall i, j :: 0 <= i < j < |positions| ==> positions[i].partition != positions[j].partition)
  }

  /** What is wrong with the cursor at i, the ones before it being coherent. */
  ghost predicate BreaksAt(stream: nat, positions: seq<Cursor>, i: nat, reason: Reason)
  {
    && i < |positions| && Coherent(stream, positions[..i])
    && match reason
       case Empty => false
       case OtherCluster => positions[i].cluster != positions[0].cluster
       case OtherStream => positions[i].cluster == positions[0].cluster && positions[i].stream != stream
       case RepeatedPartition =>
         positions[i].cluster == positions[0].cluster && positions[i].stream == stream
         && exists j :: 0 <= j < i && positions[j].partition == positions[i].partition
  }

  /** Succeeds exactly on a nonempty coherent list, which it keeps as it is; otherwise it names the first
      fault it meets. */
  method New(stream: nat, positions: seq<Cursor>) returns (r: Result)
    ensures r.Ok? <==> positions != [] && Coherent(stream, positions)
    ensures r.Ok? ==> r.vector == Vector(positions[0].cluster, stream, positions)
    ensures r.InvalidRange? ==> if positions == [] then r.reason == Empty else exists i: nat :: BreaksAt(stream, positions, i, r.reason)
  {
    if positions == [] {
      return InvalidRange(Empty);
    }
    var cluster := positions[0].cluster;
    var partitions: set<nat> := {};
    for i := 0 to |positions|
      invariant Coherent(stream, positions[..i])
      invariant forall p :: p in partitions <==> exists j :: 0 <= j < i && positions[j].partition == p
    {
      var cursor := positions[i];
      if cursor.cluster != cluster {
        assert BreaksAt(stream, positions, i, OtherCluster);
        return InvalidRange(OtherCluster);
      }
      if cursor.stream != stream {
        assert BreaksAt(stream, positions, i, OtherStream);
        return InvalidRange(OtherStream);
      }
      if cursor.partition in partitions {
        assert BreaksAt(stream, positions, i, RepeatedPartition);
        return InvalidRange(RepeatedPartition);
      }
      partitions := partitions + {cursor.partition};
    }
    assert positions[..|positions|] == positions;
    r := Ok(Vector(cluster, stream, positions));
  }
}
