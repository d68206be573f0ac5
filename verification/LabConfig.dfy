/** The experiment's settings and its participants. */
module LabConfig {
  import opened Numbers
  import opened LabState
  import opened LabSweep
  import opened LabBook

  const INITIAL_PRICE := 10_000

  datatype Config = Config(ticks: int, quantity: int, side: Side, quoteSize: int, replenishEvery: int,
                           informationDelay: int,
                           informedCount: int, inventoryAversion: int, newsJumpBps: int)

  /** What a configuration is checked for. */
  predicate Normal(c: Config) {
    && 60 <= c.ticks <= 300 && 1 <= c.quantity <= 20_000 && 10 <= c.quoteSize <= 400 && 3 <= c.replenishEvery <= 30
    && 1 <= c.informationDelay <= 60 && 0 <= c.informedCount <= 4 && 0 <= c.inventoryAversion <= 10
    && -300 <= c.newsJumpBps <= 300
  }

  lemma DecimalIsShort(n: nat)
    ensures n < 10 ==> |Decimal(n)| == 1
    ensures n < 100 ==> |Decimal(n)| <= 2
    ensures n < 1_000 ==> |Decimal(n)| <= 3
    ensures n < 10_000 ==> |Decimal(n)| <= 4
    ensures n < 100_000 ==> |Decimal(n)| <= 5
  {
    if n >= 10 { DecimalIsShort(n / 10); }
  }

  function MarketMaker(i: nat): string { "maker-" + Decimal(i) }

  function NoiseTrader(i: nat): string { "noise-" + Decimal(i) }

  function InformedTrader(i: nat): string { "informed-" + Decimal(i) }

  const PARENT := "parent"

  function NewAccount(id: string, role: Role, cash: int, inventory: int): Account {
    Account(id, role, cash, inventory, cash, inventory, inventory, 0, 0)
  }

  /** Three makers, six noise traders, the informed ones, and the parent. */
  function AccountAt(c: Config, i: nat): Account {
    if i < 3 then NewAccount(MarketMaker(i), Maker, 150_000_000, 4_000)
    else if i < 9 then NewAccount(NoiseTrader(i - 3), Noise, 40_000_000, 1_500)
    else if i < 9 + c.informedCount then NewAccount(InformedTrader(i - 9), Informed, 50_000_000, 2_000)
    else NewAccount(PARENT, Parent, 300_000_000, if c.side.Sell? then c.quantity else 0)
  }

  function CreateAccounts(c: Config): (r: seq<Account>)
    requires Normal(c)
    ensures |r| == 10 + c.informedCount && forall i :: 0 <= i < |r| ==> r[i] == AccountAt(c, i)
  {
    seq(10 + c.informedCount, i requires 0 <= i < 10 + c.informedCount => AccountAt(c, i))
  }

  function Actors(c: Config): set<string>
    requires Normal(c)
  {
    set i: nat | i < 10 + c.informedCount :: AccountAt(c, i).id
  }

  lemma NamesDiffer(c: Config, i: nat, j: nat)
    requires Normal(c) && i < j < 10 + c.informedCount
    ensures AccountAt(c, i).id != AccountAt(c, j).id
  {
    var a, b := AccountAt(c, i).id, AccountAt(c, j).id;
    if j < 3 {
      assert a[6] == DIGITS[i] && b[6] == DIGITS[j];
    } else if i < 3 {
      assert a[0] == 'm' && b[0] != 'm';
    } else if j < 9 {
      assert a[6] == DIGITS[i - 3] && b[6] == DIGITS[j - 3];
    } else if i < 9 {
      assert a[0] == 'n' && b[0] != 'n';
    } else if j < 9 + c.informedCount {
      assert a[9] == DIGITS[i - 9] && b[9] == DIGITS[j - 9];
    } else {
      assert a[0] == 'i' && b[0] == 'p';
    }
  }

  lemma NameIsIdentifier(s: string)
    requires 0 < |s| <= 128 && 'a' <= s[0] <= 'z'
    ensures IsIdentifier(s)
  {
    assert !IsBlank(s[0]);
  }

  lemma NameAt(c: Config, i: nat)
    requires Normal(c) && i < 10 + c.informedCount
    ensures var id := AccountAt(c, i).id; 0 < |id| <= 10 && 'a' <= id[0] <= 'z'
  {
    DecimalIsShort(i);
  }

  lemma AccountsAreAcceptable(c: Config)
    requires Normal(c)
    ensures AcceptableAccounts(CreateAccounts(c), 5)
  {
    hide IsIdentifier, MarketMaker, NoiseTrader, InformedTrader;
    var list := CreateAccounts(c);
    forall i | 0 <= i < |list|
      ensures IsIdentifier(list[i].id)
    {
      NameAt(c, i);
      NameIsIdentifier(list[i].id);
    }
    forall i, j | 0 <= i < j < |list|
      ensures list[i].id != list[j].id
    {
      NamesDiffer(c, i, j);
    }
  }

  lemma ActorIsKnown(c: Config, i: nat)
    requires Normal(c) && i < 9 + c.informedCount
    ensures AccountAt(c, i).id in Actors(c) && |AccountAt(c, i).id| <= 10 && IsIdentifier(AccountAt(c, i).id)
  {
    hide IsIdentifier;
    NameAt(c, i);
    NameIsIdentifier(AccountAt(c, i).id);
  }

  lemma ParentIsKnown(c: Config)
    requires Normal(c)
    ensures PARENT in Actors(c)
  {
    assert AccountAt(c, 9 + c.informedCount).id == PARENT;
  }

  lemma IdentifierIsShort(s: string)
    requires IsIdentifier(s)
    ensures 1 <= |s| <= 128
  {
  }

  lemma AccountsAreActors(c: Config, b: Book)
    requires Normal(c) && AccountsOk(b) && |b.ids| == 10 + c.informedCount
    requires forall i :: 0 <= i < |b.ids| ==> b.ids[i] == AccountAt(c, i).id
    ensures b.accounts.Keys == Actors(c)
  {
    forall id
      ensures id in b.accounts <==> id in Actors(c)
    {
      if id in b.accounts {
        assert id in b.ids;
        var i :| 0 <= i < |b.ids| && b.ids[i] == id;
      }
      if i: nat :| i < 10 + c.informedCount && AccountAt(c, i).id == id {
        assert b.ids[i] == id;
      }
    }
  }
}
