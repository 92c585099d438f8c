// The names of quorums, databases and tables, and which messages the checks let in.

module NameGuards {
  import opened Bytes
  import opened KeyedLists
  import opened ConfigMessages
  import opened Schema
  import opened SchemaInvariant
  import opened SchemaSteps
  import opened Membership
  import opened Effects
  import opened EntryEffects
  import opened Guards
  import Decimal

  // ---- names

  // At most 1024 bytes, all printable in the sense of the code, which lets 127 pass.
  predicate Printable(name: bytes) { |name| <= 1024 && forall b :: b in name ==> 32 <= b <= 127 }

  lemma GoodIsPrintable(name: bytes)
    ensures GoodName(name) <==> Printable(name)
  {
    if Printable(name) { assert forall i :: 0 <= i < |name| ==> name[i] in name; }
  }

  // What an entry does to the names of quorums: those that stay keep theirs, unless it names one.
  predicate NamesKept(qs: map<nat, Quorum>, qs': map<nat, Quorum>) {
    forall q :: q in qs' ==> q in qs && qs'[q].name == qs[q].name
  }

  lemma DatabaseEntryNames(s: State, m: Message)
    requires m.DeleteTable? || m.DeleteDatabase? || m.TruncateTableBegin? || m.FreezeDatabase? || m.UnfreezeDatabase?
    requires WellFormed(s) && CompleteMessage(s, m).Accepted? && OnMessage(s, m).Ok?
    ensures NamesKept(AsMap(s.quorums), AsMap(OnMessage(s, m).value.quorums))
  {
    hide WellFormed, OnMessage, AsMap, IndexOf, KeepRest, MigrationAfter, TruncateVerdict;
    ShardNumbers(s);
    match m {
      case DeleteTable(_) => DeleteEntryRest(s, m);
      case DeleteDatabase(_) => DeleteEntryRest(s, m);
      case TruncateTableBegin(t) => TruncateEntryRest(s, t);
      case FreezeDatabase(d) => FreezeDatabaseEntry(s, d, true);
      case UnfreezeDatabase(d) => FreezeDatabaseEntry(s, d, false);
    }
  }

  lemma ShardNumbers(s: State)
    requires WellFormed(s)
    ensures Unique(s.shards) && !Has(s.shards, s.nextShardID) && Unique(s.databases) && !Has(s.databases, s.nextDatabaseID)
    ensures Unique(s.tables) && DatabaseNamesUnique(AsMap(s.databases)) && TableNamesUnique(AsMap(s.tables))
  {}

  lemma MoveNames(s: State, m: Message)
    requires MovesNode(m) && OnMessage(s, m).Ok?
    ensures NamesKept(AsMap(s.quorums), AsMap(OnMessage(s, m).value.quorums))
  {
    hide OnMessage, AsMap, IndexOf, Elsewhere;
    OneQuorumMoves(s, m);
    var s' := OnMessage(s, m).value;
    if m.AddShardServerToQuorum? { AddEntry(s, m.quorumID, m.nodeID); }
    if m.RemoveShardServerFromQuorum? { RemoveEntry(s, m.quorumID, m.nodeID); }
    if m.ActivateShardServer? { ActivateEntry(s, m.quorumID, m.nodeID, m.force); }
    if m.DeactivateShardServer? { DeactivateEntry(s, m.quorumID, m.nodeID, m.force); }
    forall q | q in AsMap(s'.quorums) ensures q in AsMap(s.quorums) && AsMap(s'.quorums)[q].name == AsMap(s.quorums)[q].name {
      if q != m.quorumID { ElsewhereMap(s.quorums, s'.quorums, m.quorumID, q); }
    }
  }

  lemma OtherNames(s: State, m: Message)
    requires WellFormed(s) && Checked(s, m) && OnMessage(s, m).Ok? && !m.CreateQuorum? && !m.RenameQuorum?
    ensures NamesKept(AsMap(s.quorums), AsMap(OnMessage(s, m).value.quorums))
  {
    hide WellFormed, CompleteMessage, OnMessage, AsMap, IndexOf, NamesKept;
    if MovesNode(m) {
      MoveNames(s, m);
    } else if m.DeleteTable? || m.DeleteDatabase? || m.TruncateTableBegin? || m.FreezeDatabase? || m.UnfreezeDatabase? {
      DatabaseEntryNames(s, m);
    } else if m.DeleteQuorum? {
      NumberFree(s);
      DeleteQuorumEntry(s, m.quorumID);
      FewerNames(AsMap(s.quorums), m.quorumID);
    } else if m.CreateTable? || (m.SplitShardBegin? && Has(s.shards, m.shardID)) || m.ShardMigrationComplete? {
      AddEntryRest(s, m);
      RestNames(s, OnMessage(s, m).value);
    } else if m.SplitShardBegin? {
      NoSplit(s, m.shardID, m.splitKey);
      FewerNames(AsMap(s.quorums), 0);
    } else {
      SameQuorums(s, m);
      FewerNames(AsMap(s.quorums), 0);
    }
  }

  lemma FewerNames(qs: map<nat, Quorum>, q: nat)
    ensures NamesKept(qs, qs) && NamesKept(qs, qs - {q})
  {}

  lemma RestNames(s: State, s': State)
    requires RestSame(s, s')
    ensures NamesKept(AsMap(s.quorums), AsMap(s'.quorums))
  {}

  lemma NoSplit(s: State, id: nat, key: bytes)
    requires !Has(s.shards, id)
    ensures OnMessage(s, SplitShardBegin(id, key)) == Ok(s.(isSplitting := false))
  {}

  predicate QuorumNamesUnique(qs: map<nat, Quorum>) {
    forall a, b :: a in qs && b in qs && a != b ==> qs[a].name != qs[b].name
  }

  // The default name of the next quorum is taken.
  predicate DefaultNameTaken(s: State) {
    exists q :: q in AsMap(s.quorums) && AsMap(s.quorums)[q].name == DefaultQuorumName(s.nextQuorumID)
  }

  lemma QuorumNameFree(s: State, name: bytes)
    requires Unique(s.quorums)
    ensures QuorumNamed(s.quorums, name) == |s.quorums| <==> forall q :: q in AsMap(s.quorums) ==> AsMap(s.quorums)[q].name != name
  {
    hide Unique;
    var i := QuorumNamed(s.quorums, name);
    if i < |s.quorums| {
      UniqueAt(s.quorums, i);
    } else {
      forall q | q in AsMap(s.quorums) ensures AsMap(s.quorums)[q].name != name { SamePlace(s.quorums, s.quorums, q); }
    }
  }

  lemma NamedUnique(qs: map<nat, Quorum>, q: nat, o: Quorum)
    requires QuorumNamesUnique(qs)
    ensures QuorumNamesUnique(qs[q := o]) <==> forall r :: r in qs && r != q ==> qs[r].name != o.name
  {
    var qs' := qs[q := o];
    if r :| r in qs && r != q && qs[r].name == o.name {
      assert r in qs' && q in qs';
    }
  }

  lemma KeptUnique(qs: map<nat, Quorum>, qs': map<nat, Quorum>)
    requires QuorumNamesUnique(qs) && NamesKept(qs, qs')
    ensures QuorumNamesUnique(qs')
  {}

  // Main result: names of quorums stay unique, if and only if no quorum is created without a name while
  // another one has the name that it then gets, which the check does not look at.
  lemma QuorumNamesStep(s: State, m: Message)
    requires WellFormed(s) && Checked(s, m) && OnMessage(s, m).Ok? && QuorumNamesUnique(AsMap(s.quorums))
    ensures QuorumNamesUnique(AsMap(OnMessage(s, m).value.quorums)) <==> !(m.CreateQuorum? && m.name == [] && DefaultNameTaken(s))
  {
    hide WellFormed, OnMessage, AsMap, IndexOf, Unique, QuorumNamesUnique, QuorumNamed, DefaultQuorumName, GoodName, CompleteSplitShardBegin,
      TruncateVerdict;
    NumberFree(s);
    var s' := OnMessage(s, m).value;
    if m.CreateQuorum? {
      CreateQuorumEntry(s, m.name, m.nodes);
      QuorumNameFree(s, m.name);
      NamedUnique(AsMap(s.quorums), s.nextQuorumID, Get(s'.quorums, s.nextQuorumID));
    } else if m.RenameQuorum? {
      RenamedMap(s, m.quorumID, m.name);
      QuorumNameFree(s, m.name);
      NamedUnique(AsMap(s.quorums), m.quorumID, Get(s.quorums, m.quorumID).(name := m.name));
    } else {
      OtherNames(s, m);
      KeptUnique(AsMap(s.quorums), AsMap(s'.quorums));
    }
  }

  lemma RenamedMap(s: State, id: nat, name: bytes)
    requires OnMessage(s, RenameQuorum(id, name)).Ok?
    ensures Has(s.quorums, id)
    ensures AsMap(OnMessage(s, RenameQuorum(id, name)).value.quorums) == AsMap(s.quorums)[id := Get(s.quorums, id).(name := name)]
  {}

  predicate QuorumsPrintable(qs: map<nat, Quorum>) { forall q :: q in qs ==> Printable(qs[q].name) }

  // Every name is printable.
  predicate AllPrintable(s: State) {
    && QuorumsPrintable(AsMap(s.quorums))
    && (forall d :: d in AsMap(s.databases) ==> Printable(AsMap(s.databases)[d].name))
    && (forall t :: t in AsMap(s.tables) ==> Printable(AsMap(s.tables)[t].name))
  }

  predicate DatabaseNamesKept(ds: map<nat, Database>, ds': map<nat, Database>) {
    forall d :: d in ds' ==> d in ds && ds'[d].name == ds[d].name
  }

  predicate TableNamesKept(ts: map<nat, Table>, ts': map<nat, Table>) {
    forall t :: t in ts' ==> t in ts && ts'[t].name == ts[t].name
  }

  predicate CatalogKept(s: State, s': State) {
    DatabaseNamesKept(AsMap(s.databases), AsMap(s'.databases)) && TableNamesKept(AsMap(s.tables), AsMap(s'.tables))
  }

  lemma SameCatalog(s: State, s': State)
    requires s'.databases == s.databases && s'.tables == s.tables
    ensures CatalogKept(s, s')
  {}

  lemma ErasedNames(s: State, s': State, gone: set<nat>)
    ensures Erased(s, s', gone) ==> TableNamesKept(AsMap(s.tables), AsMap(s'.tables))
  {}

  lemma DeletionCatalog(s: State, m: Message)
    requires m.DeleteTable? || m.DeleteDatabase? || m.TruncateTableBegin? || m.FreezeDatabase? || m.UnfreezeDatabase?
    requires WellFormed(s) && CompleteMessage(s, m).Accepted? && OnMessage(s, m).Ok?
    ensures CatalogKept(s, OnMessage(s, m).value)
  {
    hide WellFormed, OnMessage, AsMap, IndexOf, KeepRest, MigrationAfter, TruncateVerdict, Erased, ErasedShards, QuorumsKept;
    ShardNumbers(s);
    match m {
      case DeleteTable(t) =>
        DeleteEntries(s, t);
        ErasedNames(s, OnMessage(s, m).value, {t});
        DeleteEntryRest(s, m);
      case DeleteDatabase(d) =>
        DeleteEntries(s, d);
        ErasedNames(s, OnMessage(s, m).value, TablesIn(s, d));
        DeleteEntryRest(s, m);
      case TruncateTableBegin(t) => TruncateBeginEntry(s, t); TruncateEntryRest(s, t);
      case FreezeDatabase(d) => FreezeDatabaseEntry(s, d, true);
      case UnfreezeDatabase(d) => FreezeDatabaseEntry(s, d, false);
    }
  }

  lemma MovedTable(s: State, q: nat, src: nat, dst: nat)
    requires OnShardMigrationComplete(s, q, src, dst).Ok?
    ensures TableNamesKept(AsMap(s.tables), AsMap(OnShardMigrationComplete(s, q, src, dst).value.tables))
  {
    hide IndexOf, AddSorted, Remove, Unique;
  }

  lemma SplitTable(s: State, id: nat, key: bytes)
    requires Has(s.shards, id) && OnSplitShardBegin(s, id, key).Ok?
    ensures TableNamesKept(AsMap(s.tables), AsMap(OnSplitShardBegin(s, id, key).value.tables))
  {
    hide IndexOf, AddSorted, Unique;
  }

  lemma ShardEntryCatalog(s: State, m: Message)
    requires OnMessage(s, m).Ok? && ((m.SplitShardBegin? && Has(s.shards, m.shardID)) || m.ShardMigrationComplete?)
    ensures CatalogKept(s, OnMessage(s, m).value)
  {
    hide OnMessage, OnSplitShardBegin, OnShardMigrationComplete, AsMap, IndexOf, KeepRest, QuorumsKept, TableNamesKept;
    AddEntryRest(s, m);
    if m.SplitShardBegin? {
      DispatchedShards(s, m.shardID, 0, 0, m.splitKey);
      SplitTable(s, m.shardID, m.splitKey);
    } else {
      DispatchedShards(s, m.quorumID, m.srcShardID, m.dstShardID, []);
      MovedTable(s, m.quorumID, m.srcShardID, m.dstShardID);
    }
  }

  predicate NamesOne(m: Message) {
    m.CreateDatabase? || m.RenameDatabase? || m.CreateTable? || m.RenameTable? || m.FreezeTable? || m.UnfreezeTable?
  }

  lemma OtherCatalog(s: State, m: Message)
    requires WellFormed(s) && Checked(s, m) && OnMessage(s, m).Ok? && !NamesOne(m)
    ensures CatalogKept(s, OnMessage(s, m).value)
  {
    hide WellFormed, CompleteMessage, OnMessage, AsMap, IndexOf, CatalogKept;
    if m.DeleteTable? || m.DeleteDatabase? || m.TruncateTableBegin? || m.FreezeDatabase? || m.UnfreezeDatabase? {
      DeletionCatalog(s, m);
    } else if (m.SplitShardBegin? && Has(s.shards, m.shardID)) || m.ShardMigrationComplete? {
      ShardEntryCatalog(s, m);
    } else if m.SplitShardBegin? {
      NoSplit(s, m.shardID, m.splitKey);
      SameCatalog(s, OnMessage(s, m).value);
    } else {
      NoCatalogMessage(s, m);
      SameCatalog(s, OnMessage(s, m).value);
    }
  }

  lemma NoCatalogMessage(s: State, m: Message)
    requires OnMessage(s, m).Ok? && !NamesOne(m) && !m.SplitShardBegin? && !m.ShardMigrationComplete?
    requires !m.DeleteTable? && !m.DeleteDatabase? && !m.TruncateTableBegin? && !m.FreezeDatabase? && !m.UnfreezeDatabase?
    ensures OnMessage(s, m).value.databases == s.databases && OnMessage(s, m).value.tables == s.tables
  {
    hide AsMap, IndexOf, Remove, AddSorted, QuorumNamed;
  }

  // A named object has a printable name, and the names of the others are kept.
  lemma NamedDatabase(s: State, m: Message)
    requires WellFormed(s) && CompleteMessage(s, m).Accepted? && OnMessage(s, m).Ok? && AllPrintable(s)
    requires m.CreateDatabase? || m.RenameDatabase?
    ensures var s' := OnMessage(s, m).value;
            s'.tables == s.tables && forall d :: d in AsMap(s'.databases) ==> Printable(AsMap(s'.databases)[d].name)
  {
    hide WellFormed, OnMessage, AsMap, IndexOf, Elsewhere, GoodName, Printable, DatabaseNamed;
    ShardNumbers(s);
    GoodIsPrintable(m.name);
    if m.CreateDatabase? {
      CreateDatabaseEntry(s, m.name);
    } else {
      RenameDatabaseEntry(s, m.databaseID, m.name);
      PutName(s.databases, OnMessage(s, m).value.databases, m.databaseID);
    }
  }

  lemma NamedTable(s: State, m: Message)
    requires WellFormed(s) && CompleteMessage(s, m).Accepted? && OnMessage(s, m).Ok? && AllPrintable(s)
    requires m.CreateTable? || m.RenameTable? || m.FreezeTable? || m.UnfreezeTable?
    ensures var s' := OnMessage(s, m).value;
            DatabaseNamesKept(AsMap(s.databases), AsMap(s'.databases))
            && forall t :: t in AsMap(s'.tables) ==> Printable(AsMap(s'.tables)[t].name)
  {
    hide WellFormed, OnMessage, AsMap, IndexOf, Elsewhere, GoodName, Printable, TableNamed, KeepRest, QuorumsKept;
    ShardNumbers(s);
    var s' := OnMessage(s, m).value;
    match m {
      case CreateTable(d, q, name) => GoodIsPrintable(name); CreateTableEntry(s, d, q, name); AddEntryRest(s, m);
      case RenameTable(t, name) => GoodIsPrintable(name); RenameTableEntry(s, t, name); PutName(s.tables, s'.tables, t);
      case FreezeTable(t) => FreezeTableEntry(s, t); PutName(s.tables, s'.tables, t);
      case UnfreezeTable(t) => FreezeTableEntry(s, t); PutName(s.tables, s'.tables, t);
    }
  }

  lemma NamedCatalog(s: State, m: Message)
    requires WellFormed(s) && CompleteMessage(s, m).Accepted? && OnMessage(s, m).Ok? && NamesOne(m) && AllPrintable(s)
    ensures var s' := OnMessage(s, m).value;
            (forall d :: d in AsMap(s'.databases) ==> Printable(AsMap(s'.databases)[d].name))
            && forall t :: t in AsMap(s'.tables) ==> Printable(AsMap(s'.tables)[t].name)
  {
    hide WellFormed, CompleteMessage, OnMessage, AsMap, IndexOf, Printable;
    if m.CreateDatabase? || m.RenameDatabase? { NamedDatabase(s, m); } else { NamedTable(s, m); }
  }

  lemma PutName<T>(l: seq<Keyed<T>>, l': seq<Keyed<T>>, id: nat)
    requires Elsewhere(l, l', id)
    ensures forall x :: x in AsMap(l') && x != id ==> x in AsMap(l) && AsMap(l')[x] == AsMap(l)[x]
  {
    forall x | x in AsMap(l') && x != id ensures x in AsMap(l) && AsMap(l')[x] == AsMap(l)[x] { ElsewhereMap(l, l', id, x); }
  }

  lemma NamedQuorum(s: State, m: Message)
    requires WellFormed(s) && Checked(s, m) && OnMessage(s, m).Ok? && AllPrintable(s)
    ensures var s' := OnMessage(s, m).value;
            QuorumsPrintable(AsMap(s'.quorums)) <==>
            (m.CreateQuorum? && m.name == [] ==> Printable(DefaultQuorumName(s.nextQuorumID)))
  {
    hide WellFormed, OnMessage, AsMap, IndexOf, Unique, QuorumNamed, DefaultQuorumName, GoodName, Printable, CompleteSplitShardBegin, TruncateVerdict;
    NumberFree(s);
    var s' := OnMessage(s, m).value;
    if m.CreateQuorum? {
      GoodIsPrintable(m.name);
      CreateQuorumEntry(s, m.name, m.nodes);
      assert AsMap(s'.quorums)[s.nextQuorumID] == Get(s'.quorums, s.nextQuorumID);
    } else if m.RenameQuorum? {
      GoodIsPrintable(m.name);
      RenamedMap(s, m.quorumID, m.name);
    } else {
      OtherNames(s, m);
    }
  }

  // Main result: names stay short and printable, if and only if no quorum is created without a name while
  // its number has too many digits, which no number of 64 bits has.
  lemma PrintableStep(s: State, m: Message)
    requires WellFormed(s) && Checked(s, m) && OnMessage(s, m).Ok? && AllPrintable(s)
    ensures AllPrintable(OnMessage(s, m).value) <==> (m.CreateQuorum? && m.name == [] ==> Printable(DefaultQuorumName(s.nextQuorumID)))
  {
    hide WellFormed, CompleteMessage, OnMessage, AsMap, IndexOf, DefaultQuorumName, Printable, QuorumsPrintable;
    NamedQuorum(s, m);
    if NamesOne(m) {
      NamedCatalog(s, m);
      assert !m.CreateQuorum?;
    } else {
      OtherCatalog(s, m);
      KeptPrintable(s, OnMessage(s, m).value);
    }
  }

  lemma KeptPrintable(s: State, s': State)
    requires AllPrintable(s) && CatalogKept(s, s')
    ensures forall d :: d in AsMap(s'.databases) ==> Printable(AsMap(s'.databases)[d].name)
    ensures forall t :: t in AsMap(s'.tables) ==> Printable(AsMap(s'.tables)[t].name)
  {
    hide Printable;
  }

  lemma DefaultIsPrintable(n: nat)
    requires n < Decimal.TWO_TO_64
    ensures Printable(DefaultQuorumName(n))
  {
    FourDigits(n);
    FourDigits(n / 10000);
    FourDigits(n / 10000 / 10000);
    FourDigits(n / 10000 / 10000 / 10000);
    FourDigits(n / 10000 / 10000 / 10000 / 10000);
    var name := DefaultQuorumName(n);
    forall b | b in name ensures 32 <= b <= 127 {
      var i :| 0 <= i < |name| && name[i] == b;
      if i >= 7 { assert Decimal.IsDigit(Decimal.Digits(n)[i - 7]); }
    }
  }

  lemma FourDigits(n: nat)
    ensures |Decimal.Digits(n)| <= 4 + |Decimal.Digits(n / 10000)|
  {
    assert n / 10 / 10 / 10 / 10 == n / 10000;
    assert |Decimal.Digits(n / 10)| <= 1 + |Decimal.Digits(n / 10 / 10)|;
    assert |Decimal.Digits(n / 10 / 10)| <= 1 + |Decimal.Digits(n / 10 / 10 / 10)|;
    assert |Decimal.Digits(n / 10 / 10 / 10)| <= 1 + |Decimal.Digits(n / 10 / 10 / 10 / 10)|;
  }

  // ---- what exactly is let in

  // Names that are printable and that no other object of their kind has.
  lemma QuorumGuards(s: State, q: nat, name: bytes, nodes: seq<nat>)
    requires Unique(s.quorums)
    ensures CompleteMessage(s, CreateQuorum(name, nodes)).Accepted? <==>
              Printable(name) && (forall r :: r in AsMap(s.quorums) ==> AsMap(s.quorums)[r].name != name)
              && forall n :: n in nodes ==> n in AsMap(s.shardServers)
    ensures CompleteMessage(s, RenameQuorum(q, name)).Accepted? <==>
              Printable(name) && (forall r :: r in AsMap(s.quorums) ==> AsMap(s.quorums)[r].name != name) && q in AsMap(s.quorums)
    ensures CompleteMessage(s, DeleteQuorum(q)).Accepted? <==> q in AsMap(s.quorums) && AsMap(s.quorums)[q].shards == []
  {
    hide Unique, AsMap, IndexOf, GoodName, Printable, QuorumNamed;
    GoodIsPrintable(name);
    QuorumNameFree(s, name);
  }

  lemma DatabaseGuards(s: State, d: nat, name: bytes)
    requires WellFormed(s)
    ensures CompleteMessage(s, CreateDatabase(name)).Accepted? <==>
              Printable(name) && forall e :: e in AsMap(s.databases) ==> AsMap(s.databases)[e].name != name
    ensures CompleteMessage(s, RenameDatabase(d, name)).Accepted? <==>
              Printable(name) && d in AsMap(s.databases) && forall e :: e in AsMap(s.databases) && e != d ==> AsMap(s.databases)[e].name != name
  {
    hide WellFormed, Unique, GoodName, Printable;
    ShardNumbers(s);
    GoodIsPrintable(name);
    var i := DatabaseNamed(s.databases, name);
    if i < |s.databases| {
      UniqueAt(s.databases, i);
    } else {
      DatabaseNameFree(s, name);
    }
  }

  // The search by name finds the one table of that name, if there is one.
  lemma NamedTables(s: State, d: nat, name: bytes)
    requires Unique(s.tables) && TableNamesUnique(AsMap(s.tables))
    ensures var i := TableNamed(s.tables, d, name);
            if i < |s.tables| then
              var t := s.tables[i].id;
              t in AsMap(s.tables) && AsMap(s.tables)[t].databaseID == d && AsMap(s.tables)[t].name == name
              && forall u :: u in AsMap(s.tables) && u != t && AsMap(s.tables)[u].databaseID == d ==> AsMap(s.tables)[u].name != name
            else
              forall u :: u in AsMap(s.tables) && AsMap(s.tables)[u].databaseID == d ==> AsMap(s.tables)[u].name != name
  {
    hide Unique, IndexOf, AsMap;
    var i := TableNamed(s.tables, d, name);
    if i < |s.tables| {
      UniqueAt(s.tables, i);
    } else {
      TableNameFree(s, d, name);
    }
  }

  lemma TableGuards(s: State, d: nat, q: nat, t: nat, name: bytes)
    requires WellFormed(s)
    ensures CompleteMessage(s, CreateTable(d, q, name)).Accepted? <==>
              Printable(name) && q in AsMap(s.quorums) && d in AsMap(s.databases)
              && forall u :: u in AsMap(s.tables) && AsMap(s.tables)[u].databaseID == d ==> AsMap(s.tables)[u].name != name
    ensures CompleteMessage(s, RenameTable(t, name)).Accepted? <==>
              Printable(name) && t in AsMap(s.tables)
              && forall u :: u in AsMap(s.tables) && u != t && AsMap(s.tables)[u].databaseID == AsMap(s.tables)[t].databaseID ==>
                   AsMap(s.tables)[u].name != name
  {
    hide WellFormed, Unique, GoodName, Printable, TableNamed, TableNamesUnique, IndexOf, AsMap;
    ShardNumbers(s);
    GoodIsPrintable(name);
    NamedTables(s, d, name);
    if Has(s.tables, t) { NamedTables(s, Get(s.tables, t).databaseID, name); }
  }

  lemma CatalogGuards(s: State, id: nat)
    ensures CompleteMessage(s, DeleteDatabase(id)).Accepted? <==> id in AsMap(s.databases)
    ensures CompleteMessage(s, FreezeDatabase(id)).Accepted? <==> id in AsMap(s.databases)
    ensures CompleteMessage(s, UnfreezeDatabase(id)).Accepted? <==> id in AsMap(s.databases)
    ensures CompleteMessage(s, DeleteTable(id)).Accepted? <==> id in AsMap(s.tables)
    ensures CompleteMessage(s, FreezeTable(id)).Accepted? <==> id in AsMap(s.tables)
    ensures CompleteMessage(s, UnfreezeTable(id)).Accepted? <==> id in AsMap(s.tables)
  {
    hide AsMap, IndexOf;
  }

  lemma EndGuards(s: State, id: nat)
    ensures CompleteMessage(s, TruncateTableComplete(id)).Accepted?
    ensures CompleteMessage(s, SplitShardComplete(id)).Accepted? <==>
              id in AsMap(s.shards) && AsMap(s.shards)[id].state == SHARD_SPLIT_CREATING
  {
    hide AsMap, IndexOf;
  }

  // The end of a migration is let in exactly where that migration is noted.
  lemma MigrationEndGuard(s: State, q: nat, src: nat, dst: nat)
    ensures CompleteMessage(s, ShardMigrationComplete(q, src, dst)).Accepted? <==>
              s.isMigrating && s.migrateQuorumID == q && s.migrateSrcShardID == src
  {}
}
