/** The layers above the repository: aggregation (internal/logic/v1) and the edge checks (internal/grpc/v1). */
module Service {
  import opened Validate
  import opened Posting
  import opened Aggregation
  import opened Commands
  import opened ReservationStore
  import Canonical
  import Idempotency

  // A request as the edge lets it through, every bound and alphabet spelled out.
  predicate WellFormed(req: Request) {
    && 1 <= |req.id| <= 186 && (forall c | c in req.id :: InAlphabet(c) || c == '.' || c == ':')
    && 1 <= |req.orderRef| <= 186 && (forall c | c in req.orderRef :: InAlphabet(c) || c == '.' || c == ':')
    && |req.region| <= 64 && (forall c | c in req.region :: InAlphabet(c))
    && 1 <= |req.items| <= 100 && (forall i | 0 <= i < |req.items| :: WellFormedItem(req.items[i]))
  }

  predicate WellFormedItem(it: Item) {
    1 <= it.qty <= 10_000 && 1 <= |it.sku| <= 64 && forall c | c in it.sku :: InAlphabet(c) || c == '.'
  }

  lemma WellFormedIs(req: Request)
    ensures Idempotency.ValidRequest(req) <==> WellFormed(req)
  {
    CharsetsAre(req.id);
    CharsetsAre(req.orderRef);
    CharsetsAre(req.region);
    forall i | 0 <= i < |req.items| ensures ValidItem(req.items[i]) <==> WellFormedItem(req.items[i]) {
      CharsetsAre(req.items[i].sku);
    }
  }

  class ReservationService {
    const repo: ReservationRepository

    constructor (repo: ReservationRepository)
      ensures this.repo == repo
    {
      this.repo := repo;
    }

    // Duplicate SKU lines are summed before the repository hashes and allocates.
    method Reserve(req: Request) returns (reply: Reply)
      modifies repo.pool
      ensures repo.pool.db == Exec(old(repo.pool.db), Commands.Reserve(req))
      ensures reply == Answer(old(repo.pool.db), Commands.Reserve(req))
    {
      var items := AggregateLines(req.items);
      AggregateTotals(req.items);
      reply := repo.Reserve(req.id, req.orderRef, items, req.region);
    }
  }

  class Server {
    const reservations: ReservationService

    constructor (reservations: ReservationService)
      ensures this.reservations == reservations
    {
      this.reservations := reservations;
    }

    // The gRPC Reserve: charset and bound checks, then the drift check of a hash the caller sends
    // along. None stands for InvalidArgument. Whatever hash passed the check is the one stored.
    // parses: whether expiresAt reads as an RFC 3339 time.
    method Reserve(req: Request, expiresAt: string, parses: bool, requestHash: string) returns (r: Option<Reply>)
      modifies reservations.repo.pool
      ensures r.None? <==> || !WellFormed(req) || (expiresAt != "" && !parses)
                           || (requestHash != "" && requestHash != RequestText(req))
      ensures r.None? ==> reservations.repo.pool.db == old(reservations.repo.pool.db)
      ensures r.Some? ==>
                && reservations.repo.pool.db == Exec(old(reservations.repo.pool.db), Commands.Reserve(req))
                && r.value == Answer(old(reservations.repo.pool.db), Commands.Reserve(req))
      ensures r.Some? && r.value.Held? && requestHash != "" ==>
                req.id in reservations.repo.pool.db.headers
                && reservations.repo.pool.db.headers[req.id].hash == requestHash
    {
      AggregateTotals(req.items);
      WellFormedIs(req);
      if !ValidReservationId(req.id) || !ValidReservationId(req.orderRef) || !ValidRegion(req.region) {
        return None;
      }
      var ok, items := ReservationLines(req.items);
      if !ok {
        return None;
      }
      if expiresAt != "" && !parses {
        return None;
      }
      var lines := AggregateLines(items);
      var canonical := Canonical.CanonicalText(lines, req.region);
      if requestHash != "" && requestHash != canonical {
        return None;
      }
      ghost var before := reservations.repo.pool.db;
      var reply := reservations.Reserve(req);
      if reply.Held? { Idempotency.TookMeansApplied(before, Commands.Reserve(req)); }
      return Some(reply);
    }
  }
}
