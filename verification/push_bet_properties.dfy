/**
  Properties of the push-bet-data webhook that relate several calls:
  idempotent re-delivery, the insert defaults as an update of a blank row,
  how a batch splits into a prefix and the rest, skipping, and the abort on
  an unknown member.
 */
module PushBetProperties {
  import opened Options
  import opened PushBet

  /** The all-default row: what the insert path falls back to for every absent field. */
  function BlankRow(id: string): Record {
    Record(id, "", 0, 0, "", "", Transaction(None, None, None, None, None, None, None, None, None, None, None, None, None),
           "", "", "", "", "", None, None, None, "", "")
  }

  // ---------------------------------------------------------------- one row

  /** Inserting is updating the all-default row: the defaults do not depend on the transaction. */
  lemma InsertIsUpdateOfBlank(ctx: Context, tx: Transaction)
    requires Admitted(tx)
    ensures Insert(ctx, tx) == Update(BlankRow(Key(tx)), ctx, tx)
  {
  }

  /** Applying the same transaction twice to a row is applying it once. */
  lemma UpdateIdempotent(r: Record, ctx: Context, tx: Transaction)
    requires Admitted(tx)
    ensures Update(Update(r, ctx, tx), ctx, tx) == Update(r, ctx, tx)
  {
  }

  /** Update-with-fallback over the row a transaction inserted reproduces that row. */
  lemma UpdateAfterInsert(ctx: Context, tx: Transaction)
    requires Admitted(tx)
    ensures Update(Insert(ctx, tx), ctx, tx) == Insert(ctx, tx)
  {
  }

  /** Re-delivering one transaction leaves the store as the first delivery left it. */
  lemma UpsertIdempotent(s: Store, ctx: Context, tx: Transaction)
    requires Admitted(tx)
    ensures Upsert(Upsert(s, ctx, tx), ctx, tx) == Upsert(s, ctx, tx)
  {
  }

  /** On one row: rows that an update by `a` makes equal stay so after any update `b` in between. */
  lemma UpdateKeepsShadow(r1: Record, r2: Record, ctx: Context, a: Transaction, b: Transaction)
    requires Admitted(a) && Admitted(b)
    requires Update(r1, ctx, a) == Update(r2, ctx, a)
    ensures Update(Update(r1, ctx, b), ctx, a) == Update(Update(r2, ctx, b), ctx, a)
  {
  }

  /** The row an upsert starts from: the stored one, or the blank row the insert path amounts to. */
  function Base(s: Store, k: string): Record {
    if k in s then s[k] else BlankRow(k)
  }

  lemma UpsertIsUpdateOfBase(s: Store, ctx: Context, tx: Transaction)
    requires Admitted(tx)
    ensures Upsert(s, ctx, tx)[Key(tx)] == Update(Base(s, Key(tx)), ctx, tx)
  {
  }

  /** Away from `a`'s key, `a`'s upsert changes nothing, so two stores it makes equal agree there already. */
  lemma ShadowAwayFromKey(s1: Store, s2: Store, ctx: Context, a: Transaction, b: Transaction, j: string)
    requires Admitted(a) && Admitted(b) && j != Key(a)
    requires Upsert(s1, ctx, a) == Upsert(s2, ctx, a)
    ensures j in Upsert(s1, ctx, b) <==> j in Upsert(s2, ctx, b)
    ensures j in Upsert(s1, ctx, b) ==> Upsert(s1, ctx, b)[j] == Upsert(s2, ctx, b)[j]
  {
  }

  /** On `a`'s key, the final row is `a`'s update of `b`'s update of the starting row. */
  lemma ShadowOnKey(s1: Store, s2: Store, ctx: Context, a: Transaction, b: Transaction)
    requires Admitted(a) && Admitted(b)
    requires Upsert(s1, ctx, a) == Upsert(s2, ctx, a)
    ensures Upsert(Upsert(s1, ctx, b), ctx, a)[Key(a)] == Upsert(Upsert(s2, ctx, b), ctx, a)[Key(a)]
  {
    var k := Key(a);
    var u1, u2 := Upsert(s1, ctx, b), Upsert(s2, ctx, b);
    UpsertIsUpdateOfBase(s1, ctx, a);
    UpsertIsUpdateOfBase(s2, ctx, a);
    UpsertIsUpdateOfBase(u1, ctx, a);
    UpsertIsUpdateOfBase(u2, ctx, a);
    if Key(b) == k {
      UpsertIsUpdateOfBase(s1, ctx, b);
      UpsertIsUpdateOfBase(s2, ctx, b);
      assert Base(u1, k) == Update(Base(s1, k), ctx, b);
      assert Base(u2, k) == Update(Base(s2, k), ctx, b);
      UpdateKeepsShadow(Base(s1, k), Base(s2, k), ctx, a, b);
    } else {
      assert Base(u1, k) == Base(s1, k);
      assert Base(u2, k) == Base(s2, k);
    }
  }

  /**
    A later upsert of `a` hides everything an earlier one did on `a`'s fields:
    stores that `a` makes equal stay so after any upsert `b` in between.
   */
  lemma UpsertKeepsShadow(s1: Store, s2: Store, ctx: Context, a: Transaction, b: Transaction)
    requires Admitted(a) && Admitted(b)
    requires Upsert(s1, ctx, a) == Upsert(s2, ctx, a)
    ensures Upsert(Upsert(s1, ctx, b), ctx, a) == Upsert(Upsert(s2, ctx, b), ctx, a)
  {
    var t1, t2 := Upsert(Upsert(s1, ctx, b), ctx, a), Upsert(Upsert(s2, ctx, b), ctx, a);
    forall j
      ensures j in t1 <==> j in t2
      ensures j in t1 ==> t1[j] == t2[j]
    {
      if j == Key(a) {
        ShadowOnKey(s1, s2, ctx, a, b);
      } else {
        ShadowAwayFromKey(s1, s2, ctx, a, b, j);
      }
    }
    SameEntries(t1, t2);
  }

  lemma SameEntries<K, V>(m1: map<K, V>, m2: map<K, V>)
    requires forall j :: (j in m1 <==> j in m2) && (j in m1 ==> m1[j] == m2[j])
    ensures m1 == m2
  {
  }

  // ---------------------------------------------------------------- the batch

  /** Processing `a + b` is processing `a`, then `b` from where `a` left the store, unless `a` aborted. */
  lemma {:induction false} ProcessAppend(ctx: Context, users: set<string>, a: seq<Transaction>, b: seq<Transaction>, s: Store)
    ensures Process(ctx, users, a, s).code == MemberNotExist ==>
              Process(ctx, users, a + b, s) == Process(ctx, users, a, s)
    ensures Process(ctx, users, a, s).code == Success ==>
              Process(ctx, users, a + b, s) == Process(ctx, users, b, Process(ctx, users, a, s).store)
    decreases |a|
  {
    if |a| == 0 {
      assert a + b == b;
    } else {
      assert (a + b)[1..] == a[1..] + b;
      var tx := a[0];
      if !Admitted(tx) {
        ProcessAppend(ctx, users, a[1..], b, s);
      } else if tx.memberAccount.value !in users {
      } else {
        ProcessAppend(ctx, users, a[1..], b, Upsert(s, ctx, tx));
      }
    }
  }

  /** A transaction without a truthy `member_account` or `wager_code` writes nothing and the batch goes on. */
  lemma SkippedTransactionIsNoOp(ctx: Context, users: set<string>, pre: seq<Transaction>, tx: Transaction,
                                 post: seq<Transaction>, s: Store)
    requires !Admitted(tx)
    ensures Process(ctx, users, pre + [tx] + post, s) == Process(ctx, users, pre + post, s)
  {
    ProcessAppend(ctx, users, pre, [tx] + post, s);
    ProcessAppend(ctx, users, pre, post, s);
    assert pre + [tx] + post == pre + ([tx] + post);
    assert ([tx] + post)[1..] == post;
  }

  /**
    An unknown member aborts the batch with MemberNotExist: the rows written
    by the earlier transactions stay, no later transaction is applied.
   */
  lemma UnknownMemberAbortsBatch(ctx: Context, users: set<string>, pre: seq<Transaction>, tx: Transaction,
                                 post: seq<Transaction>, s: Store)
    requires MembersKnown(pre, users)
    requires Admitted(tx) && tx.memberAccount.value !in users
    ensures Process(ctx, users, pre + [tx] + post, s) == Outcome(MemberNotExist, Process(ctx, users, pre, s).store)
  {
    ProcessAppend(ctx, users, pre, [tx] + post, s);
    assert pre + [tx] + post == pre + ([tx] + post);
  }

  /** How a batch ends does not depend on the store it starts from. */
  lemma CodeIgnoresStore(ctx: Context, users: set<string>, txs: seq<Transaction>, s1: Store, s2: Store)
    ensures Process(ctx, users, txs, s1).code == Process(ctx, users, txs, s2).code
  {
  }

  /** A batch preserves the equality a later upsert of `a` makes between two stores. */
  lemma {:induction false} ProcessKeepsShadow(ctx: Context, users: set<string>, txs: seq<Transaction>,
                                              s1: Store, s2: Store, a: Transaction)
    requires Admitted(a)
    requires Upsert(s1, ctx, a) == Upsert(s2, ctx, a)
    ensures Upsert(Process(ctx, users, txs, s1).store, ctx, a) == Upsert(Process(ctx, users, txs, s2).store, ctx, a)
    decreases |txs|
  {
    if |txs| > 0 {
      var tx := txs[0];
      if !Admitted(tx) {
        ProcessKeepsShadow(ctx, users, txs[1..], s1, s2, a);
      } else if tx.memberAccount.value !in users {
      } else {
        UpsertKeepsShadow(s1, s2, ctx, a, tx);
        ProcessKeepsShadow(ctx, users, txs[1..], Upsert(s1, ctx, tx), Upsert(s2, ctx, tx), a);
      }
    }
  }

  /** Re-delivering a whole batch gives the same code and leaves the store as the first delivery left it. */
  lemma {:induction false} ProcessRedelivery(ctx: Context, users: set<string>, txs: seq<Transaction>, s: Store)
    ensures Process(ctx, users, txs, Process(ctx, users, txs, s).store) == Process(ctx, users, txs, s)
    decreases |txs|
  {
    if |txs| > 0 {
      var pre, b := txs[..|txs| - 1], txs[|txs| - 1];
      assert txs == pre + [b];
      var o1 := Process(ctx, users, pre, s);
      var s1 := o1.store;
      ProcessAppend(ctx, users, pre, [b], s);
      ProcessAppend(ctx, users, pre, [b], Process(ctx, users, txs, s).store);
      ProcessRedelivery(ctx, users, pre, s);
      if o1.code == Success {
        assert [b][1..] == [];
        if Admitted(b) && b.memberAccount.value in users {
          var u := Upsert(s1, ctx, b);
          assert Process(ctx, users, txs, s) == Outcome(Success, u);
          CodeIgnoresStore(ctx, users, pre, u, s);
          UpsertIdempotent(s1, ctx, b);
          ProcessKeepsShadow(ctx, users, pre, u, s1, b);
        }
      }
    }
  }

  /** Calling the endpoint twice with the same request answers the same and stores the same. */
  lemma PushBetDataRedelivery(req: Request, users: set<string>, s: Store)
    ensures PushBetData(req, users, PushBetData(req, users, s).store) == PushBetData(req, users, s)
  {
    if Validates(req) {
      ProcessRedelivery(ContextOf(req), users, req.transactions.value, s);
    }
  }
}
