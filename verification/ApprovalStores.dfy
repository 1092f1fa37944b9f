/**
 The two stores as objects over their directory: the scan loop and the order of the
 writes in one call. The machine of module ApprovalLedger runs many such calls at
 once; here one call runs alone and may be cut short.
 */
module ApprovalStores {
  import opened Values
  import opened CanonicalJson
  import opened ApprovalLedger
  import opened ApprovalLedgerProofs

  datatype Failure = Malformed | AlreadyUsed | Interrupted

  /** Where a call is cut short, if it is: so many characters of its record have reached its file. */
  datatype Stop = Never | AfterWriting(characters: nat)

  /** A JSON parser followed by the comparison with the canonical text. */
  ghost predicate Parser(parse: string -> Option<Entry>) {
    forall text, e :: parse(text) == Some(e) <==> text == Body(e) && Valid(e)
  }

  ghost predicate AllComplete(h: string -> string, kind: Kind, files: map<string, string>) {
    forall name :: name in files ==> Complete(h, kind, name, files[name])
  }

  /** The file e would have, once `stop` is taken into account. */
  function Part(e: Entry, stop: Stop): string {
    if stop.Never? || stop.characters >= |Body(e)| then Body(e) else Body(e)[..stop.characters]
  }

  class LedgerDirectory {
    const kind: Kind
    var files: map<string, string>

    constructor (kind: Kind)
      ensures this.kind == kind && files == map[]
    {
      this.kind := kind;
      files := map[];
    }

    /** Reads every file; fails on the first that is not a complete record under its own name. */
    method Records(h: string -> string, parse: string -> Option<Entry>) returns (r: Result<set<Entry>, Failure>)
      requires Parser(parse)
      ensures r.Ok? <==> AllComplete(h, kind, files)
      ensures r.Err? ==> r.error == Malformed
      ensures r.Ok? ==> forall e :: e in r.value <==>
        NameOf(h, e) in files && Reads(h, kind, NameOf(h, e), files[NameOf(h, e)], e)
    {
      hide Body, Valid, NameOf;
      var unread, found := files.Keys, {};
      while unread != {}
        invariant unread <= files.Keys
        invariant forall name :: name in files && name !in unread ==> Complete(h, kind, name, files[name])
        invariant forall e :: e in found <==>
          NameOf(h, e) in files && NameOf(h, e) !in unread && Reads(h, kind, NameOf(h, e), files[NameOf(h, e)], e)
        decreases |unread|
      {
        var name :| name in unread;
        var parsed := parse(files[name]);
        if parsed.None? || parsed.value.Grant? != kind.Approvals? || name != NameOf(h, parsed.value) {
          forall e ensures !Reads(h, kind, name, files[name], e) {
            assert parse(files[name]) == Some(e) <==> files[name] == Body(e) && Valid(e);
          }
          return Err(Malformed);
        }
        assert Reads(h, kind, name, files[name], parsed.value);
        forall e | Reads(h, kind, name, files[name], e) ensures e == parsed.value {
          assert parse(files[name]) == Some(e);
        }
        found := found + {parsed.value};
        unread := unread - {name};
      }
      return Ok(found);
    }

    /** Creates the file, empty, only if there is none; then fills it. */
    method ReserveAndFill(h: string -> string, e: Entry, stop: Stop) returns (r: Result<Entry, Failure>)
      modifies this
      ensures NameOf(h, e) in old(files) ==> r == Err(AlreadyUsed) && files == old(files)
      ensures NameOf(h, e) !in old(files) ==>
        && files == old(files)[NameOf(h, e) := Part(e, stop)]
        && r == if stop.Never? then Ok(e) else Err(Interrupted)
    {
      hide Body, Valid, NameOf;
      var name := NameOf(h, e);
      if name in files {
        return Err(AlreadyUsed);
      }
      files := files[name := ""];
      // the record reaches the file piece by piece, or whole when it replaces the reservation
      files := files[name := Part(e, stop)];
      return if stop.Never? then Ok(e) else Err(Interrupted);
    }

    /** `issue`: one scan, then the reservation; the new record appears whole or not at all. */
    method Issue(h: string -> string, parse: string -> Option<Entry>, e: Entry, stop: Stop)
      returns (r: Result<Entry, Failure>)
      requires Parser(parse) && kind.Approvals? && e.Grant? && Valid(e)
      requires stop.AfterWriting? ==> stop.characters == 0 || stop.characters == |Body(e)|
      modifies this
      ensures !AllComplete(h, kind, old(files)) ==> r == Err(Malformed) && files == old(files)
      ensures AllComplete(h, kind, old(files)) && NameOf(h, e) in old(files) ==> r == Err(AlreadyUsed) && files == old(files)
      ensures AllComplete(h, kind, old(files)) && NameOf(h, e) !in old(files) ==>
        && files == old(files)[NameOf(h, e) := Part(e, stop)]
        && r == if stop.Never? then Ok(e) else Err(Interrupted)
      ensures AllComplete(h, kind, files) <==>
        AllComplete(h, kind, old(files)) && (NameOf(h, e) in old(files) || Part(e, stop) == Body(e))
    {
      hide Body, Valid, NameOf;
      var scan := Records(h, parse);
      if scan.Err? {
        return Err(Malformed);
      }
      r := ReserveAndFill(h, e, stop);
      StillComplete(h, kind, old(files), e, Part(e, stop));
    }

    /** `consume`: a scan and a look for the activation among its records, a second scan, then the reservation. */
    method Consume(h: string -> string, parse: string -> Option<Entry>, e: Entry, stop: Stop)
      returns (r: Result<Entry, Failure>)
      requires Parser(parse) && kind.Activations? && e.Consumption? && Valid(e)
      modifies this
      ensures !AllComplete(h, kind, old(files)) ==> r == Err(Malformed) && files == old(files)
      ensures AllComplete(h, kind, old(files)) && NameOf(h, e) in old(files) ==> r == Err(AlreadyUsed) && files == old(files)
      ensures AllComplete(h, kind, old(files)) && NameOf(h, e) !in old(files) ==>
        && files == old(files)[NameOf(h, e) := Part(e, stop)]
        && r == if stop.Never? then Ok(e) else Err(Interrupted)
      ensures AllComplete(h, kind, files) <==>
        AllComplete(h, kind, old(files)) && (NameOf(h, e) in old(files) || Part(e, stop) == Body(e))
    {
      hide Body, Valid;
      var existing := Records(h, parse);
      if existing.Err? {
        return Err(Malformed);
      }
      StillComplete(h, kind, files, e, Part(e, stop));
      if exists prior :: prior in existing.value && prior.activationId == e.activationId {
        return Err(AlreadyUsed);
      }
      hide NameOf;
      var again := Records(h, parse);
      if again.Err? {
        return Err(Malformed);
      }
      r := ReserveAndFill(h, e, stop);
    }
  }

  /** Adding part of a record keeps the ledger readable only if the part is the whole. */
  lemma StillComplete(h: string -> string, kind: Kind, files: map<string, string>, e: Entry, part: string)
    requires AllComplete(h, kind, files) && Valid(e) && e.Grant? == kind.Approvals? && part <= Body(e)
    ensures NameOf(h, e) !in files ==> (AllComplete(h, kind, files[NameOf(h, e) := part]) <==> part == Body(e))
  {
    hide Body, Valid, NameOf;
    var name, after := NameOf(h, e), files[NameOf(h, e) := part];
    if part == Body(e) {
      assert Reads(h, kind, name, part, e);
      assert Complete(h, kind, name, part);
      hide Complete;
      assert forall other :: other in after && other != name ==> after[other] == files[other];
    } else {
      ProperPartIsIncomplete(h, kind, name, e, part);
      assert name in after && after[name] == part;
    }
  }
}
