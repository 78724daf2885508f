/** The plugin's shared types (MySQL/Base.h), in two layers: the untagged structs the source
    declares, and the sum types they stand for. */
module Base {

  const MAX_CONNECTIONS: nat := 4

  datatype Option<+T> = None | Some(value: T)

  /** A heap-allocated C string: the identity of the allocation, and its text.  No text is
      written after the call that allocates it, so the text travels with the pointer;
      whether the pointer may still be followed is the business of the heap. */
  datatype Str = Str(ptr: nat, content: string)

  /** What a query carries to its callback. */
  datatype Extra = Id(n: int) | Vars(s: Str)

  datatype Query = Query(text: Str, resultId: int, extra: Extra)

  datatype Completion = Completion(resultId: int, extra: Extra)

  /** The completion that announces a query: its result id and its payload. */
  function CompletionOf(q: Query): (c: Completion)
    ensures c.resultId == q.resultId
    ensures q.extra.Id? ==> c.extra.Id? && c.extra.n == q.extra.n
    ensures q.extra.Vars? ==> c.extra.Vars? && c.extra.s == q.extra.s
  {
    Completion(q.resultId, q.extra)
  }

  /** The callback text that has to be released, if there is one. */
  function VarsOf(e: Extra): Option<Str> {
    match e
    case Id(_) => None
    case Vars(s) => Some(s)
  }

  function Last<T>(s: seq<T>): T
    requires s != []
  {
    s[|s| - 1]
  }

  function Init<T>(s: seq<T>): seq<T>
    requires s != []
  {
    s[..|s| - 1]
  }

  function Reverse<T>(s: seq<T>): seq<T> {
    if s == [] then [] else Reverse(s[1..]) + [s[0]]
  }

  /** The text GetString hands to the plugin: never empty. */
  function GetString(argument: string): (text: string)
    ensures text != ""
    ensures argument != "" ==> text == argument
    ensures argument == "" ==> text == "NULL"
  {
    if |argument| <= 0 then "NULL" else argument
  }

  // ---- the untagged structs ------------------------------------------------------------

  const TYPE_ARRAY: int := 0
  const TYPE_ID: int := 1

  /** `queryInfo`: one of extraId and extraVars is left uninitialised. */
  datatype QueryInfo = QueryInfo(query: Str, resultId: int, extraId: int, extraVars: Str, kind: int)

  /** `threadInfo`: likewise. */
  datatype ThreadInfo = ThreadInfo(resultId: int, extraId: int, extraVars: Str, kind: int)

  predicate KnownKind(kind: int) {
    kind == TYPE_ARRAY || kind == TYPE_ID
  }

  function ExtraOf(kind: int, extraId: int, extraVars: Str): Extra {
    if kind == TYPE_ID then Id(extraId) else Vars(extraVars)
  }

  function QueryView(q: QueryInfo): Query {
    Query(q.query, q.resultId, ExtraOf(q.kind, q.extraId, q.extraVars))
  }

  function CompletionView(c: ThreadInfo): Completion {
    Completion(c.resultId, ExtraOf(c.kind, c.extraId, c.extraVars))
  }

  function QueriesView(qs: seq<QueryInfo>): (r: seq<Query>)
    ensures |r| == |qs|
  {
    seq(|qs|, i requires 0 <= i < |qs| => QueryView(qs[i]))
  }

  function CompletionsView(cs: seq<ThreadInfo>): (r: seq<Completion>)
    ensures |r| == |cs|
  {
    seq(|cs|, i requires 0 <= i < |cs| => CompletionView(cs[i]))
  }

  lemma QueriesEmpty(qs: seq<QueryInfo>)
    ensures QueriesView(qs) == [] <==> |qs| == 0
  {
  }

  lemma QueriesFront(qs: seq<QueryInfo>)
    requires qs != []
    ensures QueriesView(qs) == [QueryView(qs[0])] + QueriesView(qs[1..])
    ensures QueriesView(qs)[0] == QueryView(qs[0]) && QueriesView(qs)[1..] == QueriesView(qs[1..])
  {
  }

  lemma QueriesBack(qs: seq<QueryInfo>, q: QueryInfo)
    ensures QueriesView(qs + [q]) == QueriesView(qs) + [QueryView(q)]
  {
  }

  lemma CompletionsEmpty(cs: seq<ThreadInfo>)
    ensures CompletionsView(cs) == [] <==> |cs| == 0
  {
  }

  lemma CompletionsFront(cs: seq<ThreadInfo>)
    requires cs != []
    ensures CompletionsView(cs) == [CompletionView(cs[0])] + CompletionsView(cs[1..])
    ensures CompletionsView(cs)[0] == CompletionView(cs[0]) && CompletionsView(cs)[1..] == CompletionsView(cs[1..])
  {
  }

  lemma CompletionsBack(cs: seq<ThreadInfo>, c: ThreadInfo)
    ensures CompletionsView(cs + [c]) == CompletionsView(cs) + [CompletionView(c)]
  {
  }
}
