/** The plan op of plan/types.go, with the fields the scheduler and the plan
    engine read. */
module Ops {

  datatype Option<+T> = None | Some(value: T)

  datatype Kind =
    | KindPlan | KindWhenBegin | KindWhenEnd
    | KindFile | KindEnsureFile | KindDir | KindSyncDir | KindEnsureDir
    | KindLink | KindLinkIfExists | KindConfigSet
    | KindService(enableOnly: bool, restart: bool, reload: bool)
    | KindOther(name: string)

  /** One conjunct of a when_begin; an unset string field is empty. */
  datatype Predicate = Predicate(fact: string, eq: string, anyOf: seq<string>, negated: bool, pathExists: string)

  /** A cleaned path: "/" and "." have no parts. */
  datatype CleanPath = CleanPath(absolute: bool, parts: seq<string>)

  datatype Op = Op(kind: Kind, id: string, elevate: bool, deps: seq<string>,
                   ifChanged: bool, watch: seq<string>,
                   all: seq<Predicate>, require: string,
                   absent: bool, path: Option<CleanPath>, members: seq<Option<CleanPath>>)

  predicate IsControlKind(kind: Kind) {
    kind.KindPlan? || kind.KindWhenBegin? || kind.KindWhenEnd?
  }

  /** The privilege classes of a body. */
  function Classes(body: seq<Op>): (c: seq<bool>)
    ensures |c| == |body|
  {
    seq(|body|, i requires 0 <= i < |body| => body[i].elevate)
  }
}
