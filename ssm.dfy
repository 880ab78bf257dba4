/**
 * The parameter store both lambdas talk to, reduced to the state they can
 * observe: a map from parameter names to stored parameters, and, for each of
 * get_parameter, put_parameter and delete_parameter, the set of names on
 * which that call errors (throttling, missing access, ...). The three sets
 * are independent: a role may read a parameter it may not write, and a
 * throttled call fails on its own.
 *
 * Two validation rules of put_parameter are kept because the provisioning
 * handler is written around them: a put without Overwrite on a name that
 * already exists is rejected, and a put that carries both Tags and
 * Overwrite=True is rejected.
 */
module Ssm {
  import opened Wrappers

  datatype ParameterType = PlainString | SecureString

  datatype Tag = Tag(key: string, value: string)

  datatype Parameter = Parameter(value: string, kind: ParameterType, description: string, tags: seq<Tag>)

  /** The arguments of one put_parameter call. */
  datatype PutRequest = PutRequest(
    name: string,
    description: string,
    value: string,
    kind: ParameterType,
    overwrite: bool,
    tags: Option<seq<Tag>>)

  /** What get_parameter gives back: the value, ParameterNotFound, or another error. */
  datatype Lookup = Found(value: string) | NotFound | Unavailable

  function LookupIn(params: map<string, Parameter>, getFails: set<string>, name: string): (r: Lookup)
    ensures r.Unavailable? <==> name in getFails
    ensures r.Found? <==> name !in getFails && name in params
    ensures r.NotFound? <==> name !in getFails && name !in params
    ensures r.Found? ==> r.value == params[name].value
  {
    if name in getFails then Unavailable
    else if name in params then Found(params[name].value)
    else NotFound
  }

  predicate PutAccepted(params: map<string, Parameter>, putFails: set<string>, req: PutRequest) {
    && req.name !in putFails
    && !(req.overwrite && req.tags.Some?)
    && (req.overwrite || req.name !in params)
  }

  /** The parameters after an accepted put; an overwrite keeps the tags already attached. */
  function Stored(params: map<string, Parameter>, req: PutRequest): (r: map<string, Parameter>)
    ensures r.Keys == params.Keys + {req.name}
    ensures r[req.name].value == req.value
    ensures forall n :: n in params && n != req.name ==> r[n] == params[n]
  {
    var tags := if req.name in params then params[req.name].tags else req.tags.GetOr([]);
    params[req.name := Parameter(req.value, req.kind, req.description, tags)]
  }

  /** delete_parameter raises ParameterNotFound on a missing name. */
  predicate DeleteAccepted(params: map<string, Parameter>, deleteFails: set<string>, name: string) {
    name !in deleteFails && name in params
  }

  class ParameterStore {
    var params: map<string, Parameter>
    var getFails: set<string>
    var putFails: set<string>
    var deleteFails: set<string>

    constructor (params: map<string, Parameter>, getFails: set<string>, putFails: set<string>, deleteFails: set<string>)
      ensures this.params == params
      ensures this.getFails == getFails && this.putFails == putFails && this.deleteFails == deleteFails
    {
      this.params := params;
      this.getFails := getFails;
      this.putFails := putFails;
      this.deleteFails := deleteFails;
    }

    method GetParameter(name: string) returns (r: Lookup)
      ensures r == LookupIn(params, getFails, name)
    {
      r := LookupIn(params, getFails, name);
    }

    method PutParameter(req: PutRequest) returns (ok: bool)
      modifies this`params
      ensures ok == PutAccepted(old(params), putFails, req)
      ensures params == if ok then Stored(old(params), req) else old(params)
    {
      ok := PutAccepted(params, putFails, req);
      if ok {
        params := Stored(params, req);
      }
    }

    method DeleteParameter(name: string) returns (ok: bool)
      modifies this`params
      ensures ok == DeleteAccepted(old(params), deleteFails, name)
      ensures params == if ok then old(params) - {name} else old(params)
    {
      ok := DeleteAccepted(params, deleteFails, name);
      if ok {
        params := params - {name};
      }
    }
  }
}
