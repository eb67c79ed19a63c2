// Driver builders, frozen by the first opening, and the clients they open.
module Driving {
  import opened Basics

  // A driver's Open as far as the store sees it: whether it succeeds.
  type Builder = Config -> bool

  predicate Supports(builders: map<string, Builder>, cfg: Config) {
    cfg.driver in builders && builders[cfg.driver](cfg)
  }

  // The clients drivers have opened so far, and how often each was closed.
  class ClientPool {
    var issued: nat
    var closes: multiset<ClientId>

    constructor ()
      ensures issued == 0 && closes == multiset{}
    {
      issued, closes := 0, multiset{};
    }

    method Open() returns (client: ClientId)
      modifies this
      ensures client == old(issued) && issued == old(issued) + 1 && closes == old(closes)
    {
      client := issued;
      issued := issued + 1;
    }

    method Close(client: ClientId)
      modifies this
      ensures closes == old(closes) + multiset{client} && issued == old(issued)
    {
      closes := closes + multiset{client};
    }
  }

  class DriverRegistry {
    var builders: map<string, Builder>
    var frozen: bool

    constructor ()
      ensures builders == map[] && !frozen
    {
      builders, frozen := map[], false;
    }

    // Panics once frozen, and on a name taken.
    method Register(name: string, b: Builder) returns (panicked: bool)
      modifies this
      ensures panicked <==> old(frozen) || name in old(builders)
      ensures builders == if panicked then old(builders) else old(builders)[name := b]
      ensures frozen == old(frozen)
    {
      if frozen || name in builders {
        return true;
      }
      builders := builders[name := b];
      return false;
    }

    method Freeze()
      modifies this
      ensures frozen && builders == old(builders)
    {
      frozen := true;
    }

    predicate Opens(cfg: Config)
      reads this
    {
      Supports(builders, cfg)
    }

    method Open(cfg: Config, pool: ClientPool) returns (client: Option<ClientId>)
      modifies pool
      ensures client == if Opens(cfg) then Some(old(pool.issued)) else None
      ensures client.Some? <==> cfg.driver in builders && builders[cfg.driver](cfg)
      ensures pool.issued == old(pool.issued) + if Opens(cfg) then 1 else 0
      ensures pool.closes == old(pool.closes)
    {
      if cfg.driver !in builders {
        return None;
      }
      if !builders[cfg.driver](cfg) {
        return None;
      }
      var c := pool.Open();
      return Some(c);
    }
  }

  // Each client opened from `first` on, once.
  ghost function Issued(first: nat, next: nat): multiset<ClientId> {
    if next <= first then multiset{} else Issued(first, next - 1) + multiset{next - 1 as ClientId}
  }

  lemma {:induction false} IssuedOnce(first: nat, next: nat, c: ClientId)
    ensures Issued(first, next)[c] == if first <= c < next then 1 else 0
  {
    if first < next {
      IssuedOnce(first, next - 1, c);
    }
  }
}
