/**
 The global source mutation lease.

 One database row names the current owner, its expiry and a version that fences out every
 earlier tenure.  The transactions on the row are functions from row to row; the class runs
 them on a mutable row in the way the lease functions of the pipeline do.
 */
module SourceLease {

  datatype OwnerKind = Generator | Warehouse

  datatype Owner = Owner(kind: OwnerKind, id: nat)

  datatype Hold = Free | Held(owner: Owner, expiresAt: int)

  datatype Row = Row(hold: Hold, version: nat)

  /** What a successful acquisition hands to its caller. */
  datatype Token = Token(owner: Owner, version: nat)

  datatype LeaseError = NonPositiveTtl | Unavailable | OwnerChanged | VersionChanged | Expired

  datatype Outcome<+T> = Granted(value: T) | Refused(error: LeaseError)

  predicate IsActive(row: Row, now: int) {
    row.hold.Held? && row.hold.expiresAt > now
  }

  /** The row still carries the token's owner and version, whatever the clock says. */
  predicate Matches(row: Row, token: Token) {
    row.hold.Held? && row.hold.owner == token.owner && row.version == token.version
  }

  function CheckCurrent(row: Row, token: Token, now: int): Outcome<()> {
    if row.hold.Free? || row.hold.owner != token.owner then Refused(OwnerChanged)
    else if row.version != token.version then Refused(VersionChanged)
    else if !IsActive(row, now) then Refused(Expired)
    else Granted(())
  }

  function AfterAcquire(row: Row, owner: Owner, now: int, ttl: int): (Row, Outcome<Token>) {
    if ttl <= 0 then (row, Refused(NonPositiveTtl))
    else if IsActive(row, now) then
      if row.hold.owner == owner then (row, Granted(Token(owner, row.version)))
      else (row, Refused(Unavailable))
    else
      (Row(Held(owner, now + ttl), row.version + 1), Granted(Token(owner, row.version + 1)))
  }

  function AfterRenew(row: Row, token: Token, now: int, ttl: int): (Row, Outcome<Token>) {
    if ttl <= 0 then (row, Refused(NonPositiveTtl))
    else
      match CheckCurrent(row, token, now)
      case Refused(error) => (row, Refused(error))
      case Granted(_) => (row.(hold := Held(token.owner, now + ttl)), Granted(token))
  }

  function AfterRelease(row: Row, token: Token): (Row, Outcome<()>) {
    if row.hold.Free? || row.hold.owner != token.owner then (row, Refused(OwnerChanged))
    else if row.version != token.version then (row, Refused(VersionChanged))
    else (Row(Free, token.version + 1), Granted(()))
  }

  /** The lease row as the lease functions update it, one transaction per call. */
  class LeaseTable {
    var hold: Hold
    var version: nat

    constructor ()
      ensures Current() == Row(Free, 0)
    {
      hold, version := Free, 0;
    }

    function Current(): Row
      reads this
    {
      Row(hold, version)
    }

    method Acquire(owner: Owner, now: int, ttl: int) returns (r: Outcome<Token>)
      modifies this
      ensures (Current(), r) == AfterAcquire(old(Current()), owner, now, ttl)
      ensures ttl <= 0 ==> Current() == old(Current()) && r == Refused(NonPositiveTtl)
      ensures ttl > 0 && old(hold).Held? && old(hold).expiresAt > now ==>
        && Current() == old(Current())
        && r == if old(hold).owner == owner then Granted(Token(owner, old(version))) else Refused(Unavailable)
      ensures ttl > 0 && (old(hold).Held? ==> old(hold).expiresAt <= now) ==>
        && hold == Held(owner, now + ttl) && version == old(version) + 1 && r == Granted(Token(owner, version))
    {
      if ttl <= 0 {
        return Refused(NonPositiveTtl);
      }
      if IsActive(Current(), now) {
        if hold.owner == owner {
          return Granted(Token(owner, version));
        }
        return Refused(Unavailable);
      }
      hold, version := Held(owner, now + ttl), version + 1;
      r := Granted(Token(owner, version));
    }

    method Assert(token: Token, now: int) returns (r: Outcome<()>)
      ensures r == CheckCurrent(Current(), token, now)
      ensures r.Granted? <==>
        hold.Held? && hold.owner == token.owner && version == token.version && hold.expiresAt > now
      ensures r.Refused? ==>
        r.error == if hold.Free? || hold.owner != token.owner then OwnerChanged
                   else if version != token.version then VersionChanged else Expired
    {
      if hold.Free? || hold.owner != token.owner {
        return Refused(OwnerChanged);
      }
      if version != token.version {
        return Refused(VersionChanged);
      }
      if hold.expiresAt <= now {
        return Refused(Expired);
      }
      r := Granted(());
    }

    method Renew(token: Token, now: int, ttl: int) returns (r: Outcome<Token>)
      modifies this
      ensures (Current(), r) == AfterRenew(old(Current()), token, now, ttl)
      ensures r.Granted? <==>
        && ttl > 0 && old(hold).Held? && old(hold).owner == token.owner && old(version) == token.version
        && old(hold).expiresAt > now
      ensures r.Granted? ==> hold == Held(token.owner, now + ttl) && version == old(version) && r.value == token
      ensures r.Refused? ==> Current() == old(Current())
    {
      if ttl <= 0 {
        return Refused(NonPositiveTtl);
      }
      var check := Assert(token, now);
      if check.Refused? {
        return Refused(check.error);
      }
      hold := Held(hold.owner, now + ttl);
      r := Granted(token);
    }

    method Release(token: Token) returns (r: Outcome<()>)
      modifies this
      ensures (Current(), r) == AfterRelease(old(Current()), token)
      ensures r.Granted? <==> old(hold).Held? && old(hold).owner == token.owner && old(version) == token.version
      ensures r.Granted? ==> hold.Free? && version == old(version) + 1
      ensures r.Refused? ==> Current() == old(Current())
    {
      if hold.Free? || hold.owner != token.owner {
        return Refused(OwnerChanged);
      }
      if version != token.version {
        return Refused(VersionChanged);
      }
      hold, version := Free, token.version + 1;
      r := Granted(());
    }
  }
}
