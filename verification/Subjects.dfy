/** pkg/nats/messages.go: the subjects of the local request interface. */
module Subjects {
  import opened Strings

  // ---------------------------------------------------------------- subjects

  datatype Topic =
    | AssertionsGet | SnapsGet | AppsPost
    | AssertionsGetV1 | SnapsGetV1 | AppsPostV1 | SnapsSnapPostV1
    | ConnectionStatus

  const AllTopics: set<Topic> := {AssertionsGet, SnapsGet, AppsPost, AssertionsGetV1, SnapsGetV1, AppsPostV1,
                                  SnapsSnapPostV1, ConnectionStatus}

  /** The subscribed patterns, token by token; dots separate the tokens. */
  function Tokens(t: Topic): (tokens: seq<string>)
    ensures forall i :: 0 <= i < |tokens| ==> '.' !in tokens[i]
  {
    match t
    case AssertionsGet => ["snapd", "v2", "assertions", "get"]
    case SnapsGet => ["snapd", "v2", "snaps", "get"]
    case AppsPost => ["snapd", "v2", "apps", "post"]
    case AssertionsGetV1 => ["v1", "snapd", "v2", "assertions", "get"]
    case SnapsGetV1 => ["v1", "snapd", "v2", "snaps", "get"]
    case AppsPostV1 => ["v1", "snapd", "v2", "apps", "post"]
    case SnapsSnapPostV1 => ["v1", "snapd", "v2", "snaps", "*", "post"]
    case ConnectionStatus => ["iot", "agent", "mqtt", "connection", "status"]
  }

  function Pattern(t: Topic): string {
    Join(Tokens(t), '.')
  }

  /** NATS matching token by token, where "*" stands for any one token. */
  predicate TokensMatch(pattern: seq<string>, subject: seq<string>) {
    |pattern| == |subject|
    && forall i :: 0 <= i < |pattern| ==> pattern[i] == "*" || pattern[i] == subject[i]
  }

  predicate Matches(t: Topic, subject: string) {
    TokensMatch(Split(Pattern(t), '.'), Split(subject, '.'))
  }

  lemma MatchesTokens(t: Topic, subject: string)
    ensures Matches(t, subject) <==> TokensMatch(Tokens(t), Split(subject, '.'))
  {
    SplitOfJoin(Tokens(t), '.');
  }

  lemma TokensConflict(t: Topic, u: Topic, parts: seq<string>)
    requires t != u && TokensMatch(Tokens(t), parts)
    ensures !TokensMatch(Tokens(u), parts)
  {
    var k := |parts|;
    assert parts[0] == Tokens(t)[0] && (t != SnapsSnapPostV1 ==> parts[k - 2] == Tokens(t)[k - 2]);
    assert |Tokens(u)| == k ==> Tokens(u)[0] != parts[0] || Tokens(u)[k - 2] != parts[k - 2];
  }

  /** No subject matches two of the subscribed patterns. */
  lemma NoOverlap(t: Topic, u: Topic, subject: string)
    requires t != u
    ensures !(Matches(t, subject) && Matches(u, subject))
  {
    MatchesTokens(t, subject);
    MatchesTokens(u, subject);
    if Matches(t, subject) {
      TokensConflict(t, u, Split(subject, '.'));
    }
  }

  /** The subject on which a snap is addressed. */
  function SnapSubject(snap: string): string {
    Join(["v1", "snapd", "v2", "snaps", snap, "post"], '.')
  }

  lemma SnapSubjectParts(snap: string)
    requires '.' !in snap
    ensures Split(SnapSubject(snap), '.') == ["v1", "snapd", "v2", "snaps", snap, "post"]
    ensures Matches(SnapsSnapPostV1, SnapSubject(snap))
  {
    SplitOfJoin(["v1", "snapd", "v2", "snaps", snap, "post"], '.');
    MatchesTokens(SnapsSnapPostV1, SnapSubject(snap));
  }

  /** A subject that matches the pattern with the wildcard addresses one dot-free name, the fifth of its
      six parts: splitting the subject undoes building it. */
  lemma SnapSubjectExact(subject: string)
    ensures var parts := Split(subject, '.');
            Matches(SnapsSnapPostV1, subject)
            <==> |parts| == 6 && '.' !in parts[4] && subject == SnapSubject(parts[4])
  {
    MatchesTokens(SnapsSnapPostV1, subject);
    var parts := Split(subject, '.');
    if Matches(SnapsSnapPostV1, subject) {
      assert parts == ["v1", "snapd", "v2", "snaps", parts[4], "post"];
      JoinOfSplit(subject, '.');
    }
    if |parts| == 6 && subject == SnapSubject(parts[4]) {
      SnapSubjectParts(parts[4]);
    }
  }
}
