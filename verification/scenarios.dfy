/** Concrete deliveries of the push-bet-data webhook and what they leave in the ledger. */
module Scenarios {
  import opened Options
  import opened Php
  import opened PushBet

  function Bet(member: string, wager: string, amount: Option<int>, currency: Option<string>): Transaction {
    Transaction(Some(member), Some(wager), Some(1), amount, Some("BET"), Some("SETTLED"), Some("R1"),
                Some("SLOT"), None, currency, Some("G1"), Some(1700000000123), None)
  }

  function Push(txs: seq<Transaction>): Request {
    Request(Some("OP1"), Some(1700000000), Some(txs))
  }

  lemma PushValidates(txs: seq<Transaction>)
    requires |txs| >= 1
    ensures Validates(Push(txs)) && ContextOf(Push(txs)) == Context("OP1", Some(1700000000))
  {
    assert !Blank("OP1"[0]);
  }

  /** A known member and an unseen wager code: one new row and Success. */
  lemma FirstDeliveryInserts()
    ensures var r := PushBetData(Push([Bet("alice", "W1", Some(100), Some("MMK"))]), {"alice"}, map[]);
            && r.response.code == Success
            && r.store.Keys == {"W1"}
            && r.store["W1"].amount == 100
            && r.store["W1"].currency == "MMK"
            && r.store["W1"].settleAt == Some(1700000000)
            && r.store["W1"].createdAtProvider == None
  {
    var tx := Bet("alice", "W1", Some(100), Some("MMK"));
    PushValidates([tx]);
    var ctx := Context("OP1", Some(1700000000));
    assert Admitted(tx) && [tx][1..] == [];
    var u := Upsert(map[], ctx, tx);
    assert Process(ctx, {"alice"}, [], u) == Outcome(Success, u);
    assert Process(ctx, {"alice"}, [tx], map[]) == Outcome(Success, u);
    assert u["W1"] == Insert(ctx, tx);
  }

  /** The same wager code again with a new amount and no currency: the amount changes, the currency stays. */
  lemma RedeliveryMergesFields()
    ensures var s := PushBetData(Push([Bet("alice", "W1", Some(100), Some("MMK"))]), {"alice"}, map[]).store;
            var r := PushBetData(Push([Bet("alice", "W1", Some(250), None)]), {"alice"}, s);
            && r.response.code == Success
            && r.store.Keys == {"W1"}
            && r.store["W1"].amount == 250
            && r.store["W1"].currency == "MMK"
  {
    var t1, t2 := Bet("alice", "W1", Some(100), Some("MMK")), Bet("alice", "W1", Some(250), None);
    PushValidates([t1]);
    PushValidates([t2]);
    var ctx := Context("OP1", Some(1700000000));
    assert Admitted(t1) && Admitted(t2) && [t1][1..] == [] && [t2][1..] == [];
    var s := Upsert(map[], ctx, t1);
    assert Process(ctx, {"alice"}, [], s) == Outcome(Success, s);
    assert Process(ctx, {"alice"}, [t1], map[]) == Outcome(Success, s);
    var u := Upsert(s, ctx, t2);
    assert Process(ctx, {"alice"}, [], u) == Outcome(Success, u);
    assert Process(ctx, {"alice"}, [t2], s) == Outcome(Success, u);
    assert u["W1"] == Update(s["W1"], ctx, t2);
  }

  /** An unknown first member stops the batch before the second, known, transaction is written. */
  lemma UnknownFirstMemberStopsBatch()
    ensures var r := PushBetData(Push([Bet("mallory", "W1", Some(5), None), Bet("alice", "W2", Some(7), None)]),
                                 {"alice"}, map[]);
            && r.response.code == MemberNotExist
            && r.response.message == "Member not found"
            && r.store == map[]
  {
    var t1, t2 := Bet("mallory", "W1", Some(5), None), Bet("alice", "W2", Some(7), None);
    PushValidates([t1, t2]);
    assert Admitted(t1) && t1.memberAccount.value !in {"alice"};
    assert Process(Context("OP1", Some(1700000000)), {"alice"}, [t1, t2], map[]) == Outcome(MemberNotExist, map[]);
  }

  /** PHP reads the member name "0" as false, so that transaction is skipped even when "0" is a user. */
  lemma ZeroMemberNameIsSkipped()
    ensures var r := PushBetData(Push([Bet("0", "W1", Some(5), None)]), {"0"}, map[]);
            && r.response.code == Success
            && r.store == map[]
  {
    var tx := Bet("0", "W1", Some(5), None);
    PushValidates([tx]);
    assert !Admitted(tx) && [tx][1..] == [];
    assert Process(Context("OP1", Some(1700000000)), {"0"}, [tx], map[]) == Outcome(Success, map[]);
  }

  /** A blank operator code fails Laravel's `required` rule and nothing is written. */
  lemma BlankOperatorCodeFailsValidation()
    ensures var r := PushBetData(Request(Some(" \t"), Some(1), Some([Bet("alice", "W1", None, None)])), {"alice"}, map[]);
            && r.response.code == InternalServerError
            && r.response.message == "Validation failed"
            && r.store == map[]
  {
  }
}
