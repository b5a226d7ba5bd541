/** The collaborators the core calls but does not implement: the
    text-generation provider, `json.loads` and Python's `str()` of non-string
    values. Each is a function handed in by the caller. */
module Collaborators {
  import opened Values

  /** One chat message, `{"role": ..., "content": ...}`. */
  datatype Message = Message(role: string, content: string)

  /** One call to the generation client: the messages and the temperature. */
  datatype Request = Request(messages: seq<Message>, temperature: real)

  datatype Env = Env(
    generate: Request -> string,       // content text the provider returns (or its error text)
    parse: string -> Option<Json>,     // json.loads; None when it raises
    repr: Json -> string)              // str() of a value that is not a string

  /** The dictionary `GenAIClient.generate_response` returns; only its
      "content" entry is ever read by the core. */
  function Respond(env: Env, request: Request): (r: Dict)
    ensures "content" in r && r["content"] == JStr(env.generate(request))
  {
    map["content" := JStr(env.generate(request))]
  }
}
