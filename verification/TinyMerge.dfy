// A three-segment file for the examples that show a promise fails: valid for
// every digest function.
module TinyMerge {
  import opened Prelude
  import opened Manifests
  import opened Writers
  import opened Loading
  import opened MergeMachine
  import opened MergeInvariant
  import opened MergeOutput

  const CONTENT: bytes := [7]

  function TinySegment(env: Env, id: string, offset: int64): Segment {
    Segment(id, offset, 1, 1, env.digest(CONTENT), ENCODING_RAW)
  }

  function TinyName(): (name: string)
    ensures |name| == 1 && !IsSpace(name[0])
  {
    "f"
  }

  function Tiny(env: Env): Manifest {
    Manifest(TinyName(), TinyName(), 3, [TinySegment(env, "a", 0), TinySegment(env, "b", 1), TinySegment(env, "c", 2)])
  }

  const TINY_SOURCE: Source := map["a" := CONTENT, "b" := CONTENT, "c" := CONTENT]

  const EMPTY_DISK := Disk(WriterState(0, map[], map[], map[]), map[], map[])

  function TinyConfig(env: Env): Config {
    Config(env, TINY_SOURCE, Compiled(Tiny(env)))
  }

  lemma TinySegmentOk(env: Env, id: string, offset: int64)
    requires DigestsAreHex(env) && id != "" && 0 <= offset <= 2
    ensures SegmentOk(TinySegment(env, id, offset), 3)
  {
  }

  lemma TrimOne(name: string)
    requires |name| == 1 && !IsSpace(name[0])
    ensures TrimSpace(name) == name
  {
    assert TrimLeft(name) == name;
  }

  lemma TinyHeaderOk(env: Env)
    ensures HeaderOk(Tiny(env)) && TrimSpace(Tiny(env).fileID) == Tiny(env).fileID
  {
    hide TinyName, TrimSpace, TinySegment;
    TrimOne(TinyName());
  }

  lemma TinySizes(env: Env)
    ensures |Tiny(env).segments| == 3 && Tiny(env).totalSize == 3
    ensures forall s :: s in Tiny(env).segments ==> s.Weight() == 1
  {
  }

  lemma TinyApart(env: Env, id: string, offset: int64, other: string, later: int64)
    requires id != other && 0 <= offset < later <= 2
    ensures Compatible(TinySegment(env, id, offset), TinySegment(env, other, later))
  {
  }

  lemma TinySegmentsOk(env: Env)
    requires DigestsAreHex(env)
    ensures SegmentsOk(Tiny(env).segments, Tiny(env).totalSize)
  {
    hide SegmentOk, Compatible, TinyName, TinySegment;
    TinySegmentOk(env, "a", 0);
    TinySegmentOk(env, "b", 1);
    TinySegmentOk(env, "c", 2);
    TinyApart(env, "a", 0, "b", 1);
    TinyApart(env, "a", 0, "c", 2);
    TinyApart(env, "b", 1, "c", 2);
  }

  lemma TinyIsAcceptable(env: Env)
    requires DigestsAreHex(env)
    ensures Acceptable(Tiny(env))
  {
    hide Tiny, SegmentsOk, HeaderOk, TrimSpace;
    TinyHeaderOk(env);
    TinySegmentsOk(env);
  }

  lemma TinyLoads(env: Env, s: Segment)
    requires s in Tiny(env).segments
    ensures Content(env, TINY_SOURCE, s) == Result.Success(CONTENT)
  {
  }

  lemma TinyConfigOk(env: Env)
    requires DigestsAreHex(env)
    ensures ConfigOk(TinyConfig(env)) && AllLoad(TinyConfig(env)) && TinyConfig(env).Count() == 3
    ensures forall i :: 0 <= i < 3 ==> TinyConfig(env).Weight(i) == 1
  {
    TinyIsAcceptable(env);
    TinySizes(env);
    AcceptedManifestIsOk(env, TINY_SOURCE, Tiny(env));
    hide Acceptable, Content, TinySegment;
    var cfg := TinyConfig(env);
    forall i | 0 <= i < cfg.Count() ensures cfg.Data(i).Success? && cfg.Weight(i) == 1 {
      assert cfg.manifest.segments[i] in multiset(Tiny(env).segments);
      TinyLoads(env, cfg.manifest.segments[i]);
    }
  }
}
