/** Every stored version can be read back, byte for byte. */
module ReadBack {
  import opened Records
  import opened Protocol
  import Reader
  import Safety
  import SafetyRuns
  import Service

  /** In every reachable state the reader of a version has all its blobs, in the recorded sizes, and
      the bytes it strings together are the version's body, as long as its recorded size. */
  lemma VersionReadable(states: seq<State>, steps: seq<Step>, i: nat, id: ObjectId)
    requires IsRun(states, steps) && i < |states| && id in states[i].kv.objects
    ensures var s, o := states[i], states[i].kv.objects[id];
      Reader.Sized(s.blobs, id.bucket, o.parts) && !Reader.Missing(s.blobs, id.bucket, o.parts) &&
      Reader.AllBytes(s.blobs, id.bucket, o.parts) == Safety.Body(s.blobs, id.bucket, o.parts) &&
      Service.TotalSize(o.parts) == o.size
  {
    var s, o := states[i], states[i].kv.objects[id];
    hide IsRun;
    SafetyRuns.EveryBodyIsRight(states, steps, i, id);
    forall n | 0 <= n < |o.parts|
      ensures Safety.Holds(s.blobs, Blob(id.bucket, o.parts[n].blob), o.parts[n])
    {
      SafetyRuns.NoRecordLosesData(states, steps, i, Safety.ObjRef(id, n));
    }
    Reader.AllBytesIsBody(s.blobs, id.bucket, o.parts);
  }
}
