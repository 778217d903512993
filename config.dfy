/**
 * The broker client configuration of kafka/config.go: option records whose
 * JSON tags name the client's configuration keys. Encoding a record gives the
 * key/value map handed to the client; every field is `omitempty`, and the
 * credential block is embedded, so its keys sit beside the others.
 */
module KafkaConfig {
  import opened Wrappers

  /** A value held by an `interface{}` option. */
  datatype Value = Text(s: string) | Number(n: int) | Flag(b: bool)

  /** `KafkaCred`: connection and authentication options; None is a nil interface. */
  datatype KafkaCred = KafkaCred(
    brokers: Option<Value>,
    username: Option<Value>,
    password: Option<Value>,
    saslMechanism: Option<Value>,
    saslProtocol: Option<Value>,
    clientId: Option<Value>)

  /** `KafkaConsumerConfig`; `cred` is the embedded `*KafkaCred`, None when nil. */
  datatype KafkaConsumerConfig = KafkaConsumerConfig(
    cred: Option<KafkaCred>,
    groupId: Option<Value>,
    goEventChannel: bool,
    offsetReset: Option<Value>)

  /** `KafkaProducerConfig`; `cred` is the embedded `*KafkaCred`, None when nil. */
  datatype KafkaProducerConfig = KafkaProducerConfig(
    cred: Option<KafkaCred>,
    acknowledge: Option<Value>)

  const BootstrapServers := "bootstrap.servers"
  const SaslUsername := "sasl.username"
  const SaslPassword := "sasl.password"
  const SaslMechanisms := "sasl.mechanisms"
  const SecurityProtocol := "security.protocol"
  const ClientId := "client.id"
  const GroupId := "group.id"
  const GoEventsChannelEnable := "go.events.channel.enable"
  const AutoOffsetReset := "auto.offset.reset"
  const Acks := "acks"

  const CredKeys: set<string> :=
    {BootstrapServers, SaslUsername, SaslPassword, SaslMechanisms, SecurityProtocol, ClientId}
  const ConsumerKeys: set<string> := CredKeys + {GroupId, GoEventsChannelEnable, AutoOffsetReset}
  const ProducerKeys: set<string> := CredKeys + {Acks}

  const EmptyCred := KafkaCred(None, None, None, None, None, None)

  /** A tagged field: its JSON key and its value, None when it is omitted. */
  type Field = (string, Option<Value>)

  /** The tagged fields of an embedded credential block; a nil block contributes none. */
  function CredFields(cred: Option<KafkaCred>): seq<Field>
  {
    match cred
    case None => []
    case Some(c) => [
      (BootstrapServers, c.brokers), (SaslUsername, c.username), (SaslPassword, c.password),
      (SaslMechanisms, c.saslMechanism), (SecurityProtocol, c.saslProtocol), (ClientId, c.clientId)]
  }

  /** The tagged fields of a consumer configuration; a false bool is omitted. */
  function ConsumerFields(c: KafkaConsumerConfig): seq<Field>
  {
    CredFields(c.cred) + [
      (GroupId, c.groupId),
      (GoEventsChannelEnable, if c.goEventChannel then Some(Flag(true)) else None),
      (AutoOffsetReset, c.offsetReset)]
  }

  function ProducerFields(p: KafkaProducerConfig): seq<Field>
  {
    CredFields(p.cred) + [(Acks, p.acknowledge)]
  }

  /** JSON encoding with `omitempty`: each present field under its key, in field order. */
  function Encode(fields: seq<Field>): map<string, Value>
    decreases |fields|
  {
    if fields == [] then map[]
    else
      var m := Encode(fields[..|fields| - 1]);
      var (key, value) := fields[|fields| - 1];
      if value.Some? then m[key := value.value] else m
  }

  /** The value under key, None when the key is absent. */
  function Get(m: map<string, Value>, key: string): Option<Value>
  {
    if key in m then Some(m[key]) else None
  }

  predicate DistinctKeys(fields: seq<Field>)
  {
    forall i, j :: 0 <= i < j < |fields| ==> fields[i].0 != fields[j].0
  }

  /**
   * With distinct keys, the encoding holds each field under its key exactly
   * when the field is set, and nothing else.
   */
  lemma {:induction false} EncodeFields(fields: seq<Field>)
    requires DistinctKeys(fields)
    ensures forall i :: 0 <= i < |fields| ==> Get(Encode(fields), fields[i].0) == fields[i].1
    ensures forall k :: k in Encode(fields) ==> exists i :: 0 <= i < |fields| && fields[i].0 == k
    decreases |fields|
  {
    if fields != [] {
      var init := fields[..|fields| - 1];
      assert DistinctKeys(init);
      EncodeFields(init);
      forall k | k in Encode(fields) ensures exists i :: 0 <= i < |fields| && fields[i].0 == k {
        if k != fields[|fields| - 1].0 {
          assert k in Encode(init);
          var i :| 0 <= i < |init| && init[i].0 == k;
          assert fields[i].0 == k;
        }
      }
    }
  }

  /**
   * The ten tags are distinct. Tags of different lengths differ trivially; the
   * hints separate those of equal length by one character.
   */
  lemma TagsDistinct()
    ensures |{BootstrapServers, SaslUsername, SaslPassword, SaslMechanisms, SecurityProtocol, ClientId,
              GroupId, GoEventsChannelEnable, AutoOffsetReset, Acks}| == 10
  {
    assert BootstrapServers[0] != SecurityProtocol[0] && BootstrapServers[0] != AutoOffsetReset[0];
    assert SecurityProtocol[0] != AutoOffsetReset[0];
    assert SaslUsername[5] != SaslPassword[5];
  }

  lemma ConsumerFieldsDistinct(c: KafkaConsumerConfig)
    ensures DistinctKeys(ConsumerFields(c))
    ensures forall i :: 0 <= i < |ConsumerFields(c)| ==> ConsumerFields(c)[i].0 in ConsumerKeys
  {
    TagsDistinct();
  }

  lemma ProducerFieldsDistinct(p: KafkaProducerConfig)
    ensures DistinctKeys(ProducerFields(p))
    ensures forall i :: 0 <= i < |ProducerFields(p)| ==> ProducerFields(p)[i].0 in ProducerKeys
  {
    TagsDistinct();
  }

  /** The consumer's map for the broker client. */
  function ConsumerConfigMap(c: KafkaConsumerConfig): (m: map<string, Value>)
    ensures m.Keys <= ConsumerKeys
    ensures forall f :: f in ConsumerFields(c) ==> Get(m, f.0) == f.1
    ensures (GoEventsChannelEnable in m) <==> c.goEventChannel
    ensures c.cred.None? ==> m.Keys !! CredKeys
  {
    var fields := ConsumerFields(c);
    ConsumerFieldsDistinct(c);
    EncodeFields(fields);
    assert Get(Encode(fields), GoEventsChannelEnable) == fields[|fields| - 2].1;
    Encode(fields)
  }

  /** The producer's map for the broker client. */
  function ProducerConfigMap(p: KafkaProducerConfig): (m: map<string, Value>)
    ensures m.Keys <= ProducerKeys
    ensures forall f :: f in ProducerFields(p) ==> Get(m, f.0) == f.1
    ensures p.cred.None? ==> m.Keys !! CredKeys
  {
    var fields := ProducerFields(p);
    ProducerFieldsDistinct(p);
    EncodeFields(fields);
    Encode(fields)
  }

  /** Reading the credential block back from a map; no credential key reads as a nil block. */
  function CredFromMap(m: map<string, Value>): Option<KafkaCred>
  {
    var c := KafkaCred(
      Get(m, BootstrapServers), Get(m, SaslUsername), Get(m, SaslPassword),
      Get(m, SaslMechanisms), Get(m, SecurityProtocol), Get(m, ClientId));
    if c == EmptyCred then None else Some(c)
  }

  function ConsumerFromMap(m: map<string, Value>): KafkaConsumerConfig
  {
    KafkaConsumerConfig(CredFromMap(m), Get(m, GroupId), Get(m, GoEventsChannelEnable) == Some(Flag(true)), Get(m, AutoOffsetReset))
  }

  function ProducerFromMap(m: map<string, Value>): KafkaProducerConfig
  {
    KafkaProducerConfig(CredFromMap(m), Get(m, Acks))
  }

  /** A credential block with no field set encodes like a nil one. */
  function NormalCred(cred: Option<KafkaCred>): Option<KafkaCred>
  {
    if cred == Some(EmptyCred) then None else cred
  }

  /** The map loses nothing but the difference between a nil and an all-unset credential block. */
  lemma ConsumerRoundTrip(c: KafkaConsumerConfig)
    ensures ConsumerFromMap(ConsumerConfigMap(c)) == c.(cred := NormalCred(c.cred))
  {
    var m := ConsumerConfigMap(c);
    var fields := ConsumerFields(c);
    assert (GroupId, c.groupId) in fields;
    assert (AutoOffsetReset, c.offsetReset) in fields;
    CredRoundTrip(c.cred, m, fields);
  }

  lemma ProducerRoundTrip(p: KafkaProducerConfig)
    ensures ProducerFromMap(ProducerConfigMap(p)) == p.(cred := NormalCred(p.cred))
  {
    var m := ProducerConfigMap(p);
    var fields := ProducerFields(p);
    assert (Acks, p.acknowledge) in fields;
    CredRoundTrip(p.cred, m, fields);
  }

  /** The credential keys of a map built from fields that include the block's fields give the block back. */
  lemma CredRoundTrip(cred: Option<KafkaCred>, m: map<string, Value>, fields: seq<Field>)
    requires forall f :: f in fields ==> Get(m, f.0) == f.1
    requires forall f :: f in CredFields(cred) ==> f in fields
    requires cred.None? ==> m.Keys !! CredKeys
    ensures CredFromMap(m) == NormalCred(cred)
  {
    match cred
    case None =>
    case Some(c) =>
      var cf := CredFields(cred);
      assert cf[0] in fields && cf[1] in fields && cf[2] in fields;
      assert cf[3] in fields && cf[4] in fields && cf[5] in fields;
  }

  /** The consumer and producer keys of their own never collide with a credential key. */
  lemma NoKeyCollision()
    ensures CredKeys !! {GroupId, GoEventsChannelEnable, AutoOffsetReset}
    ensures CredKeys !! {Acks}
    ensures |ConsumerKeys| == 9 && |ProducerKeys| == 7
  {
  }
}
