/**
 Attribute enrichment: process-identity attributes of the resource are copied,
 under new keys, onto an output data point's attributes, each only when its
 source value is a non-zero integer or a non-empty string.
 */
module Enrichment {
  import opened Pdata

  const ParentPidSource := "process.parent_pid"
  const ParentPidTarget := "process.parent.pid"

  /** For each string attribute: the key written on the data point, and the resource key it is read from. */
  const StrCopies: map<string, string> := map[
    "user.name" := "process.owner",
    "process.executable" := "process.executable.path",
    "process.name" := "process.executable.name"
  ]

  /** Every key the enrichment may write. */
  const TargetKeys: set<string> := StrCopies.Keys + {ParentPidTarget}

  /** The parent pid as read from the resource: 0 when absent or not an integer. */
  function ParentPid(resource: Attributes): int {
    Get(resource, ParentPidSource).Int()
  }

  /** The string copied to target key `t`: "" when the source is absent or not a string. */
  function CopiedStr(resource: Attributes, t: string): string
    requires t in StrCopies
  {
    Get(resource, StrCopies[t]).Str()
  }

  function AddProcessAttributes(resource: Attributes, dp: Attributes): (r: Attributes)
    ensures ParentPid(resource) != 0 ==> ParentPidTarget in r && r[ParentPidTarget] == IntAttr(ParentPid(resource))
    ensures ParentPid(resource) == 0 ==>
      (ParentPidTarget in r <==> ParentPidTarget in dp) && (ParentPidTarget in dp ==> r[ParentPidTarget] == dp[ParentPidTarget])
    ensures forall t :: t in StrCopies && CopiedStr(resource, t) != "" ==> t in r && r[t] == StrAttr(CopiedStr(resource, t))
    ensures forall t :: t in StrCopies && CopiedStr(resource, t) == "" ==> (t in r <==> t in dp) && (t in dp ==> r[t] == dp[t])
    ensures forall k :: k !in TargetKeys ==> (k in r <==> k in dp) && (k in dp ==> r[k] == dp[k])
  {
    var ppid := Get(resource, "process.parent_pid").Int();
    var a := if ppid != 0 then dp["process.parent.pid" := IntAttr(ppid)] else dp;
    var owner := Get(resource, "process.owner").Str();
    var b := if owner != "" then a["user.name" := StrAttr(owner)] else a;
    var executable := Get(resource, "process.executable.path").Str();
    var c := if executable != "" then b["process.executable" := StrAttr(executable)] else b;
    var name := Get(resource, "process.executable.name").Str();
    if name != "" then c["process.name" := StrAttr(name)] else c
  }

  /** The attributes an enrichment writes: exactly the non-zero and non-empty sources. */
  function Copies(resource: Attributes): map<string, AttrVal> {
    var strs := map t | t in StrCopies && CopiedStr(resource, t) != "" :: StrAttr(CopiedStr(resource, t));
    if ParentPid(resource) != 0 then strs[ParentPidTarget := IntAttr(ParentPid(resource))] else strs
  }

  /** Enrichment is a map union: the point's own attributes, overridden by the copies. */
  lemma EnrichmentIsUnion(resource: Attributes, dp: Attributes)
    ensures AddProcessAttributes(resource, dp) == dp + Copies(resource)
  {
  }

  /** Enriching twice with the same resource is enriching once. */
  lemma EnrichmentIdempotent(resource: Attributes, dp: Attributes)
    ensures AddProcessAttributes(resource, AddProcessAttributes(resource, dp)) == AddProcessAttributes(resource, dp)
  {
  }
}
