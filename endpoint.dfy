/** The endpoint scaffold: an object named after a resource that, for each
    basic HTTP verb it is given, gains an attribute holding a prepared
    request on `/<name>`. An attribute that is never assigned is `None`. */
module EndpointScaffold {
  import opened Values

  /** `Request(verb, uri, session)`, prepared but not sent. */
  datatype Prepared<Session> = Prepared(verb: string, uri: string, session: Session)

  /** The five attributes `_add_basic_methods` may assign. */
  datatype Operations<Session> = Operations(
    get: Option<Prepared<Session>>,
    post: Option<Prepared<Session>>,
    updateUsr: Option<Prepared<Session>>,
    update: Option<Prepared<Session>>,
    delete: Option<Prepared<Session>>)

  function NoOperations<Session>(): Operations<Session> {
    Operations(None, None, None, None, None)
  }

  /** The attribute a verb in `basic_methods` sets — or keeps. */
  function Attribute<Session>(verb: string, basicMethods: seq<string>, uri: string, session: Session,
                              previous: Option<Prepared<Session>>): Option<Prepared<Session>> {
    if verb in basicMethods then Some(Prepared(verb, uri, session)) else previous
  }

  /** The attributes after `_add_basic_methods(basic_methods)` on an object
      whose attributes were `ops`. */
  function AddOperations<Session>(name: string, session: Session, basicMethods: seq<string>, ops: Operations<Session>): Operations<Session> {
    if basicMethods == [] then ops
    else
      var uri := "/" + name;
      Operations(
        Attribute("GET", basicMethods, uri, session, ops.get),
        Attribute("POST", basicMethods, uri, session, ops.post),
        Attribute("PUT", basicMethods, uri, session, ops.updateUsr),
        Attribute("PATCH", basicMethods, uri, session, ops.update),
        Attribute("DELETE", basicMethods, uri, session, ops.delete))
  }

  /** The operations a freshly constructed endpoint has. */
  function BasicOperations<Session>(name: string, session: Session, basicMethods: seq<string>): Operations<Session> {
    AddOperations(name, session, basicMethods, NoOperations())
  }

  /** No basic methods, no operations. */
  lemma NoBasicMethods<Session>(name: string, session: Session)
    ensures BasicOperations(name, session, []) == NoOperations()
  {
  }

  /** Each of the five verbs yields exactly its own attribute, on `/<name>`
      with the endpoint's session, when and only when it is listed. */
  lemma VerbAttributes<Session>(name: string, session: Session, basicMethods: seq<string>)
    ensures var ops := BasicOperations(name, session, basicMethods);
      && (ops.get.Some? <==> "GET" in basicMethods)
      && (ops.post.Some? <==> "POST" in basicMethods)
      && (ops.updateUsr.Some? <==> "PUT" in basicMethods)
      && (ops.update.Some? <==> "PATCH" in basicMethods)
      && (ops.delete.Some? <==> "DELETE" in basicMethods)
      && (ops.get.Some? ==> ops.get.value == Prepared("GET", "/" + name, session))
      && (ops.post.Some? ==> ops.post.value == Prepared("POST", "/" + name, session))
      && (ops.updateUsr.Some? ==> ops.updateUsr.value == Prepared("PUT", "/" + name, session))
      && (ops.update.Some? ==> ops.update.value == Prepared("PATCH", "/" + name, session))
      && (ops.delete.Some? ==> ops.delete.value == Prepared("DELETE", "/" + name, session))
  {
  }

  /** Any other verb in the list changes nothing. */
  lemma OtherVerbsIgnored<Session>(name: string, session: Session, basicMethods: seq<string>, verb: string)
    requires verb !in ["GET", "POST", "PUT", "PATCH", "DELETE"]
    ensures BasicOperations(name, session, basicMethods + [verb]) == BasicOperations(name, session, basicMethods)
  {
    forall v | v in ["GET", "POST", "PUT", "PATCH", "DELETE"] ensures v in basicMethods + [verb] <==> v in basicMethods {
      assert v != verb;
    }
  }

  /** Adding the same list twice is adding it once. */
  lemma AddOperationsIdempotent<Session>(name: string, session: Session, basicMethods: seq<string>, ops: Operations<Session>)
    ensures AddOperations(name, session, basicMethods, AddOperations(name, session, basicMethods, ops))
         == AddOperations(name, session, basicMethods, ops)
  {
  }

  class Endpoint<Session> {
    var name: string
    var session: Session
    var get: Option<Prepared<Session>>
    var post: Option<Prepared<Session>>
    var updateUsr: Option<Prepared<Session>>
    var update: Option<Prepared<Session>>
    var delete: Option<Prepared<Session>>

    function Ops(): Operations<Session>
      reads this
    {
      Operations(get, post, updateUsr, update, delete)
    }

    /** `__init__`: name and session are stored as given, then the basic
        methods are added. */
    constructor (name: string, basicMethods: seq<string>, session: Session)
      ensures this.name == name && this.session == session
      ensures Ops() == BasicOperations(name, session, basicMethods)
    {
      this.name := name;
      this.session := session;
      get, post, updateUsr, update, delete := None, None, None, None, None;
      new;
      AddBasicMethods(basicMethods);
    }

    /** `_add_basic_methods`: each listed verb assigns its attribute;
        nothing else changes. */
    method AddBasicMethods(basicMethods: seq<string>)
      modifies this
      ensures name == old(name) && session == old(session)
      ensures Ops() == AddOperations(name, session, basicMethods, old(Ops()))
    {
      if basicMethods == [] {
        return;
      }
      var uri := "/" + name;
      if "GET" in basicMethods {
        get := Some(Prepared("GET", uri, session));
      }
      if "POST" in basicMethods {
        post := Some(Prepared("POST", uri, session));
      }
      if "PUT" in basicMethods {
        updateUsr := Some(Prepared("PUT", uri, session));
      }
      if "PATCH" in basicMethods {
        update := Some(Prepared("PATCH", uri, session));
      }
      if "DELETE" in basicMethods {
        delete := Some(Prepared("DELETE", uri, session));
      }
    }
  }
}
