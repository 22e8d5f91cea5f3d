/**
  What the dependency-injection container hands to the request pipeline: the
  keywords array of a handler method (its `openTransaction` flag, its `ext`
  arguments and the connection objects it injects) and the handler instance with
  its database connection. How the container builds them is not part of this model;
  they are inputs.
 */
module Container {
  import opened Php
  import opened Exceptions

  /**
    A value of the keywords array: an object that implements ManualCollectInterface
    (a pooled connection, told apart by `id`), or any other value.
   */
  datatype KeywordValue = Collectable(id: nat) | Plain(v: Value)

  /** The keywords array, in the order the container built it. */
  type Keywords = OrderedMap<string, KeywordValue>

  /** A database connection, described by which of its calls throw and what. */
  datatype Database = Database(beginError: Option<Exception>, commitError: Option<Exception>, rollbackError: Option<Exception>)

  /** The object the container returns for a handler class: whether it extends HandlerAbstract, and its database. */
  datatype Instance = Instance(isHandler: bool, database: Database)

  /**
    `$keywords['openTransaction']` used as a condition. A missing key reads as null,
    so it is false, and `isset($k) && $k` means the same thing.
   */
  predicate OpensTransaction(keywords: Keywords)
  {
    match keywords.Get("openTransaction")
    case None => false
    case Some(Collectable(_)) => true
    case Some(Plain(v)) => !Falsy(v)
  }
}
