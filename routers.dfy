/**
  The router table (App\Router\Routers): a PHP array from action code to route.
  Codes are `int | string` and are stored under PHP's normalised array key, so the
  code 7 and the code "7" address the same route.
 */
module Router {
  import opened Php

  /** A route (RouterInterface): the envelope message class, possibly empty, and the message class. */
  datatype Route = Route(protobufBase: string, protobuf: string)

  class Routers {
    var routers: map<ArrayKey, Route>

    /** Every stored key is already in normal form, as PHP stores it. */
    ghost predicate Valid()
      reads this
    {
      forall k :: k in routers ==> NormalizeKey(k) == k
    }

    constructor ()
      ensures Valid() && routers == map[]
      ensures forall code :: GetRouter(code) == None
    {
      routers := map[];
    }

    /** `$this->routers[$code] = $router`: the last registration of a code wins. */
    method AddRouter(code: ArrayKey, router: Route)
      requires Valid()
      modifies this
      ensures Valid()
      ensures routers == old(routers)[NormalizeKey(code) := router]
      ensures GetRouter(code) == Some(router)
      ensures forall c :: NormalizeKey(c) != NormalizeKey(code) ==> GetRouter(c) == old(GetRouter(c))
    {
      routers := routers[NormalizeKey(code) := router];
    }

    /** `$this->routers[$code] ?? null`; it only reads the table. */
    function GetRouter(code: ArrayKey): (r: Option<Route>)
      reads this
      ensures r.Some? <==> NormalizeKey(code) in routers
      ensures r.Some? ==> r.value == routers[NormalizeKey(code)]
    {
      var k := NormalizeKey(code);
      if k in routers then Some(routers[k]) else None
    }
  }
}
