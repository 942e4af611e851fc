/** The self-healing table of the IMDS bridge (internal/bridgebind: binder). */
module TableBinder {
  import opened Options

  /** What a listing found. */
  datatype TableState = Missing | Listed(listing: string)

  /** Which nft calls of a tick fail: the first listing, the apply, the listing
      after it. */
  datatype Faults = Faults(list: bool, apply: bool, relist: bool)

  /** The kernel's table, as nft sees it. */
  class Nft {
    const listing: string -> string   // what listing the table shows once a script is applied
    var table: Option<string>         // the table's listing; None when there is no table

    constructor (listing: string -> string, table: Option<string>)
      ensures this.listing == listing && this.table == table
    {
      this.listing, this.table := listing, table;
    }

    /** Replaces the table in one transaction. */
    method Apply(script: string, fails: bool) returns (ok: bool)
      modifies this
      ensures ok <==> !fails
      ensures table == if ok then Some(listing(script)) else old(table)
    {
      ok := !fails;
      if ok {
        table := Some(listing(script));
      }
    }

    /** A listing that fails looks like a table that is missing. */
    method List(fails: bool) returns (state: TableState)
      ensures state == if fails || table.None? then Missing else Listed(table.value)
    {
      return if fails || table.None? then Missing else Listed(table.value);
    }
  }

  class Binder {
    const nft: Nft
    const render: string -> Option<string>  // fingerprint to script; None when the configs cannot be read
    var fp: string
    var haveFP: bool
    var want: string       // "" until the configurations were read
    var seen: TableState   // the table as the last successful apply left it
    var failing: bool      // the last apply failed

    constructor (nft: Nft, render: string -> Option<string>)
      requires forall f :: render(f).Some? ==> render(f).value != ""
      ensures this.nft == nft && this.render == render && want == "" && !failing && !haveFP
      ensures Valid()
    {
      this.nft, this.render := nft, render;
      fp, haveFP, want, seen, failing := "", false, "", Missing, false;
    }

    /** want is the rendering of the last readable configurations; seen, once an
        apply went well, is what applying want leaves, unless it could not be
        listed. No rendering is empty. */
    ghost predicate Valid()
      reads this
    {
      && Readable()
      && (!haveFP ==> want == "")
      && (haveFP && render(fp).Some? ==> want == render(fp).value)
      && (want != "" && !failing ==> seen == Listed(nft.listing(want)) || seen == Missing)
    }

    /** The configurations are read again only when their fingerprint changed. */
    method Read(now: string) returns (changed: bool)
      requires Readable() && (!haveFP ==> want == "") && (haveFP && render(fp).Some? ==> want == render(fp).value)
      modifies this`fp, this`haveFP, this`want
      ensures fp == now && haveFP
      ensures want == if render(now).Some? then render(now).value else old(want)
      ensures changed <==> want != old(want)
    {
      changed := false;
      if !haveFP || now != fp {
        fp, haveFP := now, true;
        var script := render(now);
        if script.None? {
        } else if script.value != want {
          want, changed := script.value, true;
        }
      }
    }

    /** No rendering is empty. */
    ghost predicate Readable() {
      forall f :: render(f).Some? ==> render(f).value != ""
    }

    /** One check; now is the fingerprint of the configurations. */
    method Tick(now: string, faults: Faults) returns (applied: bool)
      requires Valid()
      modifies this, nft
      ensures Valid() && fp == now && haveFP
      // What is wanted follows the configurations, and stays when they cannot be read.
      ensures want == if render(now).Some? then render(now).value else old(want)
      // Only an apply of what is wanted changes the table.
      ensures nft.table == if applied then Some(nft.listing(want)) else old(nft.table)
      ensures applied ==> !failing && want != "" && !faults.apply
      ensures applied ==> seen == if faults.relist then Missing else Listed(nft.listing(want))
      ensures faults.apply ==> !applied
      // A tick that applies nothing remembers what it knew.
      ensures !applied ==> seen == old(seen)
      ensures !applied && !faults.apply ==> failing == old(failing)
      // Something new that is not applied is a failure, to be retried.
      ensures failing ==> faults.apply || (old(failing) && want == "")
      ensures !applied && want != old(want) ==> failing
      // A tick with nft working leaves the table as wanted, exactly unless the
      // table is missing and so was the listing after the last apply.
      ensures want != "" && faults == Faults(false, false, false) ==>
                (nft.table == Some(nft.listing(want)) <==>
                 !(old(nft.table).None? && old(seen).Missing? && !old(failing) && want == old(want)))
    {
      var changed := Read(now);
      if want == "" {
        return false;
      }
      var state := nft.List(faults.list);
      if !changed && !failing {
        if state == seen {
          return false;
        }
      }
      var ok := nft.Apply(want, faults.apply);
      if !ok {
        failing := true;
        return false;
      }
      failing := false;
      seen := nft.List(faults.relist);
      return true;
    }

    /** Run's first check: it goes on only with a table applied. */
    method Start(now: string, faults: Faults) returns (ok: bool)
      requires Valid() && !haveFP && !failing
      modifies this, nft
      ensures Valid()
      ensures ok ==> nft.table == Some(nft.listing(want)) && render(now) == Some(want)
      ensures !ok <==> render(now).None? || faults.apply
    {
      var applied := Tick(now, faults);
      if want == "" {
        return false;
      }
      if failing {
        return false;
      }
      ok := true;
    }
  }

  /** A table deleted after any number of quiet ticks is restored, if the
      listing after the last apply went well. */
  method DeletedAfterQuietTicks(b: Binder, now: string, quiet: nat)
    requires b.Valid() && b.want != "" && !b.failing && b.render(now) == Some(b.want)
    requires b.nft.table == Some(b.nft.listing(b.want)) && b.seen == Listed(b.nft.listing(b.want))
    modifies b, b.nft
    ensures b.Valid() && b.want == old(b.want) && b.nft.table == Some(b.nft.listing(b.want))
  {
    for i := 0 to quiet
      invariant b.Valid() && b.want == old(b.want) && !b.failing
      invariant b.nft.table == Some(b.nft.listing(b.want)) && b.seen == Listed(b.nft.listing(b.want))
    {
      var applied := b.Tick(now, Faults(false, false, false));
    }
    b.nft.table := None;
    var applied := b.Tick(now, Faults(false, false, false));
  }

  /** The table is not restored: the apply went well but its listing failed, the
      table was deleted, and a tick with nft working leaves it missing. */
  method DeletedAfterUnlistedApply() returns (b: Binder)
    ensures b.Valid() && b.want == "script" && !b.failing && b.nft.table == None
  {
    var nft := new Nft(script => script, None);
    b := new Binder(nft, f => Some("script"));
    var applied := b.Tick("fp", Faults(false, false, true));
    assert b.want == "script";
    nft.table := None;
    applied := b.Tick("fp", Faults(false, false, false));
  }
}
