/** What a replayed answer says: the stored one, tagged, and nothing else. */
module BitcoinReplay {
  import opened Json
  import opened BitcoinStore
  import opened BitcoinSend
  import opened BitcoinSendLives
  import opened BitcoinSendOutcomes

  lemma {:induction false} SetFieldSets(fields: seq<Field>, key: string, value: Json, k: string)
    ensures Has(SetField(fields, key, value), k) <==> Has(fields, k) || k == key
    ensures Get(SetField(fields, key, value), k) == if k == key then value else Get(fields, k)
  {
    var out := SetField(fields, key, value);
    if fields == [] {
      assert out[0].key == key;
    } else {
      HasEither(fields, k);
      HasEither(out, k);
      if fields[0].key == key {
        assert out[1..] == fields[1..];
      } else {
        assert out[1..] == SetField(fields[1..], key, value);
        SetFieldSets(fields[1..], key, value, k);
      }
    }
  }

  lemma HasEither(fields: seq<Field>, k: string)
    requires fields != []
    ensures Has(fields, k) <==> fields[0].key == k || Has(fields[1..], k)
  {
    if Has(fields[1..], k) {
      var i :| 0 <= i < |fields[1..]| && fields[1..][i].key == k;
      assert fields[i + 1].key == k;
    }
    if Has(fields, k) && fields[0].key != k {
      var i :| 0 <= i < |fields| && fields[i].key == k;
      assert fields[1..][i - 1].key == k;
    }
  }

  lemma {:induction false} SetFieldKeepsDistinct(fields: seq<Field>, key: string, value: Json)
    requires DistinctKeys(fields)
    ensures DistinctKeys(SetField(fields, key, value))
  {
    if fields != [] && fields[0].key != key {
      var rest := SetField(fields[1..], key, value);
      SetFieldKeepsDistinct(fields[1..], key, value);
      SetFieldSets(fields[1..], key, value, fields[0].key);
      forall i | 0 <= i < |rest|
        ensures rest[i].key != fields[0].key
      {
        if rest[i].key == fields[0].key { assert Has(rest, fields[0].key); }
      }
    }
  }

  /**
   A tagged body names the new request and says that it is a replay; every other key is there if
   and only if it was, with the same value, and none has been added. What is no object stays as it is.
   */
  lemma TagsKeepTheRest(body: Json, requestId: string, k: string)
    requires body.Obj? ==> DistinctKeys(body.fields)
    ensures !body.Obj? ==> TagReplay(body, requestId) == body
    ensures body.Obj? ==>
      var tagged := TagReplay(body, requestId);
      && tagged.Obj? && DistinctKeys(tagged.fields)
      && Has(tagged.fields, "requestId") && Get(tagged.fields, "requestId") == Str(requestId)
      && Has(tagged.fields, "idempotentReplay") && Get(tagged.fields, "idempotentReplay") == Bool(true)
      && (k != "requestId" && k != "idempotentReplay" ==>
            (Has(tagged.fields, k) <==> Has(body.fields, k)) && Get(tagged.fields, k) == Get(body.fields, k))
  {
    if body.Obj? {
      var named := SetField(body.fields, "requestId", Str(requestId));
      assert "requestId"[0] != "idempotentReplay"[0];
      SetFieldKeepsDistinct(body.fields, "requestId", Str(requestId));
      SetFieldKeepsDistinct(named, "idempotentReplay", Bool(true));
      forall l {
        SetFieldSets(body.fields, "requestId", Str(requestId), l);
      }
      forall l {
        SetFieldSets(named, "idempotentReplay", Bool(true), l);
      }
    }
  }

  /** Tagging leaves the data and the success of a body alone. */
  lemma TagsKeepTheData(body: Json, requestId: string)
    requires body.Obj?
    ensures TagReplay(body, requestId).Obj?
    ensures Data(TagReplay(body, requestId)) == Data(body)
    ensures Get(TagReplay(body, requestId).fields, "success") == Get(body.fields, "success")
    ensures Get(TagReplay(body, requestId).fields, "requestId") == Str(requestId)
    ensures Get(TagReplay(body, requestId).fields, "idempotentReplay") == Bool(true)
  {
    var named := SetField(body.fields, "requestId", Str(requestId));
    assert |"data"| == 4 && |"success"| == 7 && |"requestId"| == 9 && |"idempotentReplay"| == 16;
    forall l {
      SetFieldSets(body.fields, "requestId", Str(requestId), l);
    }
    forall l {
      SetFieldSets(named, "idempotentReplay", Bool(true), l);
    }
  }

  /** `answer` is a replay, to the request with this id, of the broadcast this record stands for. */
  predicate ReplaysBroadcast(answer: Json, requestId: string, id: nat, record: TxRecord) {
    && answer.Obj? && Get(answer.fields, "success") == Bool(true)
    && Get(answer.fields, "requestId") == Str(requestId) && Get(answer.fields, "idempotentReplay") == Bool(true)
    && Get(Data(answer), "txid") == Str(record.txid) && Get(Data(answer), "recordId") == Int(id)
    && Get(Data(answer), "wallet") == Str(record.wallet) && Get(Data(answer), "feeSats") == Int(record.feeSats)
    && Get(Data(answer), "totalOutputSats") == Int(record.totalOutputSats)
  }

  /**
   A replay of a send success: a later request that claims the key while its row lives ends with
   status 200 and an answer that names the txid, number, wallet, fee and total of the row's broadcast
   record, the new request's id and that it is a replay.
   */
  lemma ReplayNamesTheBroadcast(
      cfg: Config, run: seq<World>, moves: seq<Move>, i: nat, j: nat, id: nat, now: int, drawn: string)
    requires BitcoinSend.IsRun(cfg, run, moves) && i <= j < |run|
    requires id in run[j].workers && run[j].workers[id].pc.Claiming?
    requires run[j].workers[id].call.key in run[i].db.rows
    requires var row, call := run[i].db.rows[run[j].workers[id].call.key], run[j].workers[id].call;
      && row.state == Succeeded && SendRoute(row.scope) && row.scope == call.scope && row.requestHash == call.hash
      && now < row.expiresAt
    requires Outlives(run, moves, i, j, run[j].workers[id].call.key)
    requires Enabled(run[j], Act(id, now, drawn, Quiet))
    ensures var call, s' := run[j].workers[id].call, Step(cfg, run[j], Act(id, now, drawn, Quiet));
      var row := run[i].db.rows[call.key];
      && s'.db == run[j].db && s'.workers[id].pc.Finished? && s'.workers[id].pc.outcome.Answered?
      && s'.workers[id].pc.outcome.statusCode == 200
      && row.preparedRecordId.Some? && row.preparedRecordId.value in run[i].db.records
      && run[i].db.records[row.preparedRecordId.value].status == TxBroadcast
      && ReplaysBroadcast(s'.workers[id].pc.outcome.body, call.requestId, row.preparedRecordId.value,
                          run[i].db.records[row.preparedRecordId.value])
  {
    hide TagReplay, Data, Outlives, Step;
    var call := run[j].workers[id].call;
    SettledKeysReplay(cfg, run, moves, i, j, id, now, drawn);
    SuccessAnswersWithTheRecord(cfg, run, moves, i, call.key);
    TagsKeepTheData(run[i].db.rows[call.key].response, call.requestId);
  }
}
