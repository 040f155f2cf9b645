/** The configuration of a thread pool: either a fixed pool of
    `fixedPoolSize` threads, or an elastic pool described by `minPoolSize`,
    `maxPoolSize` and `keepAliveTime`, which must be configured all together
    or not at all. Modelled on `fanpoll.infra.base.async.ThreadPoolConfig`. */
module ThreadPoolConfigs {
  import opened Results

  /** Kotlin `Int` and `Long`. No arithmetic is done on them here, so only
      their ranges are modelled. */
  newtype Int32 = x: int | -0x8000_0000 <= x < 0x8000_0000
  newtype Int64 = x: int | -0x8000_0000_0000_0000 <= x < 0x8000_0000_0000_0000

  datatype ThreadPoolConfig = ThreadPoolConfig(
    fixedPoolSize: Option<Int32>,
    minPoolSize: Option<Int32>,
    maxPoolSize: Option<Int32>,
    keepAliveTime: Option<Int64>)

  /** The error `require` raises: an `IllegalArgumentException` with a message. */
  datatype ConfigError = IllegalArgument(message: string)

  const ElasticFieldsMessage: string :=
    "minPoolSize, maxPoolSize, keepAliveTime should be configured"

  /** The data class's default values: a fixed pool of one thread. */
  const DefaultConfig: ThreadPoolConfig := ThreadPoolConfig(Some(1), None, None, None)

  /** How many of the three elastic-pool fields are configured (non-null).
      This counting definition is the reference the predicates below are
      checked against. */
  function ElasticFieldCount(c: ThreadPoolConfig): (n: nat)
    ensures n <= 3
  {
    (if c.minPoolSize.Some? then 1 else 0)
    + (if c.maxPoolSize.Some? then 1 else 0)
    + (if c.keepAliveTime.Some? then 1 else 0)
  }

  /** `isFixedThreadPool()`: a fixed size is given and no elastic field is. */
  function IsFixedThreadPool(c: ThreadPoolConfig): (r: bool)
    ensures r <==> c.fixedPoolSize.Some? && ElasticFieldCount(c) == 0
  {
    c.fixedPoolSize.Some?
    && (c.minPoolSize.None? && c.maxPoolSize.None? && c.keepAliveTime.None?)
  }

  /** `validate()`: the elastic fields are all set or all unset; otherwise
      `require` fails with `ElasticFieldsMessage`. */
  function Validate(c: ThreadPoolConfig): (r: Outcome<ConfigError>)
    ensures r.Pass? <==> ElasticFieldCount(c) == 0 || ElasticFieldCount(c) == 3
    ensures r.Fail? ==> r.error == IllegalArgument(ElasticFieldsMessage)
  {
    if (c.minPoolSize.Some? && c.maxPoolSize.Some? && c.keepAliveTime.Some?)
       || (c.minPoolSize.None? && c.maxPoolSize.None? && c.keepAliveTime.None?)
    then Pass
    else Fail(IllegalArgument(ElasticFieldsMessage))
  }

  /** Validation succeeds exactly when the elastic fields are all non-null or
      all null. */
  lemma ValidateIffAllOrNone(c: ThreadPoolConfig)
    ensures Validate(c).Pass? <==>
              (c.minPoolSize.Some? && c.maxPoolSize.Some? && c.keepAliveTime.Some?)
              || (c.minPoolSize.None? && c.maxPoolSize.None? && c.keepAliveTime.None?)
  {
  }

  /** Configuring one or two, but not all three, elastic fields is rejected. */
  lemma PartialElasticConfigIsRejected(c: ThreadPoolConfig)
    requires 1 <= ElasticFieldCount(c) <= 2
    ensures Validate(c) == Fail(IllegalArgument(ElasticFieldsMessage))
  {
  }

  /** The fixed pool size plays no part in validation. */
  lemma ValidateIgnoresFixedPoolSize(c: ThreadPoolConfig, size: Option<Int32>)
    ensures Validate(c.(fixedPoolSize := size)) == Validate(c)
  {
  }

  /** Every fixed pool is valid ... */
  lemma FixedThreadPoolIsValid(c: ThreadPoolConfig)
    requires IsFixedThreadPool(c)
    ensures Validate(c).Pass?
  {
  }

  /** ... but validity does not make a pool fixed: a fully configured
      elastic pool is valid, and so is a configuration with every field
      null, and neither is fixed. */
  lemma SomeValidConfigsAreNotFixed()
    ensures exists c: ThreadPoolConfig ::
              Validate(c).Pass? && !IsFixedThreadPool(c) && ElasticFieldCount(c) == 3
    ensures exists c: ThreadPoolConfig ::
              Validate(c).Pass? && !IsFixedThreadPool(c)
              && c.fixedPoolSize.None? && ElasticFieldCount(c) == 0
  {
    var elastic := ThreadPoolConfig(Some(1), Some(1), Some(4), Some(60_000));
    assert Validate(elastic).Pass? && !IsFixedThreadPool(elastic) && ElasticFieldCount(elastic) == 3;
    var empty := ThreadPoolConfig(None, None, None, None);
    assert Validate(empty).Pass? && !IsFixedThreadPool(empty) && ElasticFieldCount(empty) == 0;
  }

  /** The default configuration is a valid fixed pool of one thread. */
  lemma DefaultConfigIsValidFixedPool()
    ensures Validate(DefaultConfig).Pass?
    ensures IsFixedThreadPool(DefaultConfig)
    ensures DefaultConfig.fixedPoolSize == Some(1)
  {
  }

  /** `ThreadPoolConfig.Builder`: the same four settable fields. */
  datatype Builder = Builder(
    fixedPoolSize: Option<Int32>,
    minPoolSize: Option<Int32>,
    maxPoolSize: Option<Int32>,
    keepAliveTime: Option<Int64>)

  /** A freshly created builder, before any field is assigned. */
  const NewBuilder: Builder := Builder(Some(1), None, None, None)

  /** `build()`: construct the configuration from the builder's fields and
      return it only if it validates; otherwise the validation error is
      raised. */
  function Build(b: Builder): (r: Result<ThreadPoolConfig, ConfigError>)
    ensures r.Success? <==> Validate(ThreadPoolConfig(b.fixedPoolSize, b.minPoolSize, b.maxPoolSize, b.keepAliveTime)).Pass?
    ensures r.Success? ==>
              && r.value.fixedPoolSize == b.fixedPoolSize
              && r.value.minPoolSize == b.minPoolSize
              && r.value.maxPoolSize == b.maxPoolSize
              && r.value.keepAliveTime == b.keepAliveTime
              && Validate(r.value).Pass?
    ensures r.Failure? ==> r.error == IllegalArgument(ElasticFieldsMessage)
  {
    var c := ThreadPoolConfig(b.fixedPoolSize, b.minPoolSize, b.maxPoolSize, b.keepAliveTime);
    match Validate(c)
    case Pass => Success(c)
    case Fail(e) => Failure(e)
  }

  /** A builder left untouched builds the data class's default configuration. */
  lemma NewBuilderBuildsDefaultConfig()
    ensures Build(NewBuilder) == Success(DefaultConfig)
  {
  }
}
