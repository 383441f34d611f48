/**
 * uimaFIT's FlowControllerFactory: builds the descriptor of a flow controller class from
 * what reflection finds on the class, explicit configuration, and resource bindings.
 * Reflection and the configuration and resource factories are given as oracles; their
 * calls are recorded on the descriptor in the order they are made.
 */
module FlowControllerFactory {
  import opened Wrappers

  /** The framework tag of Java components. */
  const JavaFrameworkName: string := "org.apache.uima.java"

  const GeneratedNotice: string := "Descriptor automatically generated by uimaFIT"

  const UnknownVersion: string := "unknown"

  datatype ExternalResourceDescription = ExternalResourceDescription(name: string, implementationName: string)

  datatype ExternalResourceDependency = ExternalResourceDependency(key: string, interfaceName: string, optional: bool)

  /** A configuration value (a Java object). */
  datatype Value =
    | Text(s: string)
    | Number(n: int)
    | Flag(b: bool)
    | Resource(description: ExternalResourceDescription)

  datatype ConfigurationParameter =
    ConfigurationParameter(name: string, paramType: string, multiValued: bool, mandatory: bool)

  /** Parameter declarations with their parallel values. */
  datatype ConfigurationData = ConfigurationData(parameters: seq<ConfigurationParameter>, values: seq<Value>)

  /** What reflection answers about a flow controller class. */
  datatype FlowControllerClass = FlowControllerClass(
    name: string,                                            // getName()
    packageString: Option<string>,                           // getPackage().toString(); None: getPackage() is null
    reflectedConfiguration: ConfigurationData,               // ConfigurationParameterFactory.createConfigurationData(class)
    resourceDeclarations: seq<ExternalResourceDependency>)   // getResourceDeclarations(class).values(), in iteration order

  /** The two helpers the variadic overload applies to its name/value sequence. */
  datatype PairFactories = PairFactories(
    extractExternalResourceParameters: seq<Value> -> map<string, ExternalResourceDescription>,
    createConfigurationData: seq<Value> -> ConfigurationData)

  /** One call of `setConfigurationParameters`; `values` is `None` when the array passed is null. */
  datatype ConfigurationCall = ConfigurationCall(parameters: seq<ConfigurationParameter>, values: Option<seq<Value>>)

  datatype FactoryError =
    | ParametersNotInPairs   // IllegalArgumentException from ensureParametersComeInPairs
    | NullPackage            // NullPointerException from getPackage().toString()

  type Binding = (string, ExternalResourceDescription)

  /** The observable content of a flow controller description. */
  datatype DescriptionValue = DescriptionValue(
    frameworkImplementation: string,
    implementationName: string,
    configurationCalls: seq<ConfigurationCall>,
    name: string,
    vendor: string,
    description: string,
    version: string,
    externalResourceDependencies: seq<ExternalResourceDependency>,
    bindings: seq<Binding>)

  class FlowControllerDescription {
    var frameworkImplementation: string
    var implementationName: string
    var configurationCalls: seq<ConfigurationCall>
    var name: string
    var vendor: string
    var description: string
    var version: string
    var externalResourceDependencies: seq<ExternalResourceDependency>
    var bindings: seq<Binding>

    constructor ()
      ensures configurationCalls == [] && externalResourceDependencies == [] && bindings == []
    {
      frameworkImplementation, implementationName := "", "";
      configurationCalls := [];
      name, vendor, description, version := "", "", "", "";
      externalResourceDependencies := [];
      bindings := [];
    }

    function Model(): DescriptionValue
      reads this
    {
      DescriptionValue(frameworkImplementation, implementationName, configurationCalls, name, vendor,
                       description, version, externalResourceDependencies, bindings)
    }

    /** `ResourceCreationSpecifierFactory.setConfigurationParameters` on this description. */
    method SetConfigurationParameters(parameters: seq<ConfigurationParameter>, values: Option<seq<Value>>)
      modifies this`configurationCalls
      ensures configurationCalls == old(configurationCalls) + [ConfigurationCall(parameters, values)]
    {
      configurationCalls := configurationCalls + [ConfigurationCall(parameters, values)];
    }

    /** `ExternalResourceFactory.bindExternalResource` on this description. */
    method BindExternalResource(key: string, resource: ExternalResourceDescription)
      modifies this`bindings
      ensures bindings == old(bindings) + [(key, resource)]
    {
      bindings := bindings + [(key, resource)];
    }
  }

  /** The keys `bindings` binds. */
  function BoundKeys(bindings: seq<Binding>): set<string>
  {
    set i | 0 <= i < |bindings| :: bindings[i].0
  }

  /** No key is bound twice. */
  predicate DistinctKeys(bindings: seq<Binding>)
  {
    forall i, j :: 0 <= i < j < |bindings| ==> bindings[i].0 != bindings[j].0
  }

  /** `bindings` binds every entry of `resources` once, with its own value, and nothing else. */
  predicate BindsEachEntryOnce(bindings: seq<Binding>, resources: map<string, ExternalResourceDescription>)
  {
    && DistinctKeys(bindings)
    && BoundKeys(bindings) == resources.Keys
    && forall i :: 0 <= i < |bindings| ==> bindings[i].0 in resources && resources[bindings[i].0] == bindings[i].1
  }

  /** What the four-argument overload promises about the description it returns. */
  predicate Describes(d: DescriptionValue, c: FlowControllerClass,
                      configurationParameters: Option<seq<ConfigurationParameter>>,
                      configurationValues: Option<seq<Value>>,
                      externalResources: Option<map<string, ExternalResourceDescription>>)
  {
    && c.packageString.Some?
    && d.frameworkImplementation == JavaFrameworkName
    && d.implementationName == c.name
    && d.name == c.name
    && d.vendor == c.packageString.value
    && d.description == GeneratedNotice
    && d.version == UnknownVersion
    && d.configurationCalls
       == [ConfigurationCall(c.reflectedConfiguration.parameters, Some(c.reflectedConfiguration.values))]
          + (if configurationParameters.Some?
             then [ConfigurationCall(configurationParameters.value, configurationValues)] else [])
    && d.externalResourceDependencies == c.resourceDeclarations
    && match externalResources
       case None => d.bindings == []
       case Some(m) => BindsEachEntryOnce(d.bindings, m)
  }

  /** The binding loop: one `bindExternalResource` call per entry of `resources`, in map order. */
  method BindExternalResources(desc: FlowControllerDescription, resources: map<string, ExternalResourceDescription>)
    requires desc.bindings == []
    modifies desc`bindings
    ensures BindsEachEntryOnce(desc.bindings, resources)
  {
    var remaining := resources.Keys;
    while remaining != {}
      invariant remaining <= resources.Keys
      invariant DistinctKeys(desc.bindings)
      invariant BoundKeys(desc.bindings) == resources.Keys - remaining
      invariant forall i :: 0 <= i < |desc.bindings| ==>
        desc.bindings[i].0 in resources && resources[desc.bindings[i].0] == desc.bindings[i].1
      decreases remaining
    {
      var key :| key in remaining;
      ghost var before := desc.bindings;
      desc.BindExternalResource(key, resources[key]);
      assert BoundKeys(desc.bindings) == BoundKeys(before) + {key} by {
        assert forall i :: 0 <= i < |before| ==> desc.bindings[i] == before[i];
        assert desc.bindings[|before|].0 == key;
      }
      remaining := remaining - {key};
    }
  }

  /**
   * The four-argument overload: a fresh description of the class with its reflected
   * configuration, then the explicit one if given, its declared resource dependencies,
   * and one binding per entry of the resource map if given.
   */
  method CreateFlowControllerDescription(
    flowControllerClass: FlowControllerClass,
    configurationParameters: Option<seq<ConfigurationParameter>>,
    configurationValues: Option<seq<Value>>,
    externalResources: Option<map<string, ExternalResourceDescription>>)
    returns (r: Result<FlowControllerDescription, FactoryError>)
    ensures r.Failure? <==> flowControllerClass.packageString.None?
    ensures r.Failure? ==> r.error == NullPackage
    ensures r.Success? ==>
      && fresh(r.value)
      && Describes(r.value.Model(), flowControllerClass, configurationParameters, configurationValues,
                   externalResources)
  {
    var desc: FlowControllerDescription := new FlowControllerDescription();
    desc.frameworkImplementation := JavaFrameworkName;
    desc.implementationName := flowControllerClass.name;

    var reflected := flowControllerClass.reflectedConfiguration;
    desc.SetConfigurationParameters(reflected.parameters, Some(reflected.values));
    if configurationParameters.Some? {
      desc.SetConfigurationParameters(configurationParameters.value, configurationValues);
    }

    desc.name := flowControllerClass.name;
    if flowControllerClass.packageString.None? {
      return Failure(NullPackage);
    }
    desc.vendor := flowControllerClass.packageString.value;
    desc.description := GeneratedNotice;
    desc.version := UnknownVersion;

    desc.externalResourceDependencies := flowControllerClass.resourceDeclarations;

    if externalResources.Some? {
      BindExternalResources(desc, externalResources.value);
    }
    return Success(desc);
  }

  /** The three-argument overload: the four-argument one without resource bindings. */
  method CreateFlowControllerDescriptionWithoutResources(
    flowControllerClass: FlowControllerClass,
    configurationParameters: Option<seq<ConfigurationParameter>>,
    configurationValues: Option<seq<Value>>)
    returns (r: Result<FlowControllerDescription, FactoryError>)
    ensures r.Failure? <==> flowControllerClass.packageString.None?
    ensures r.Failure? ==> r.error == NullPackage
    ensures r.Success? ==>
      && fresh(r.value)
      && Describes(r.value.Model(), flowControllerClass, configurationParameters, configurationValues, None)
  {
    r := CreateFlowControllerDescription(flowControllerClass, configurationParameters, configurationValues, None);
  }

  /**
   * The variadic overload: rejects a name/value sequence of odd length before anything is
   * built; otherwise passes the configuration and the resources extracted from it on.
   */
  method CreateFlowControllerDescriptionFromPairs(
    flowControllerClass: FlowControllerClass,
    configurationData: seq<Value>,
    factories: PairFactories)
    returns (r: Result<FlowControllerDescription, FactoryError>)
    ensures |configurationData| % 2 != 0 ==> r == Failure(ParametersNotInPairs)
    ensures |configurationData| % 2 == 0 ==>
      && (r.Failure? <==> flowControllerClass.packageString.None?)
      && (r.Failure? ==> r.error == NullPackage)
    ensures r.Success? ==>
      var cdata := factories.createConfigurationData(configurationData);
      && fresh(r.value)
      && Describes(r.value.Model(), flowControllerClass, Some(cdata.parameters), Some(cdata.values),
                   Some(factories.extractExternalResourceParameters(configurationData)))
  {
    if |configurationData| % 2 != 0 {
      return Failure(ParametersNotInPairs);
    }
    var externalResources := factories.extractExternalResourceParameters(configurationData);
    var cdata := factories.createConfigurationData(configurationData);
    r := CreateFlowControllerDescription(flowControllerClass, Some(cdata.parameters), Some(cdata.values),
                                         Some(externalResources));
  }

  lemma {:induction false} DistinctKeysCount(bindings: seq<Binding>)
    requires DistinctKeys(bindings)
    ensures |BoundKeys(bindings)| == |bindings|
  {
    if bindings != [] {
      var last := |bindings| - 1;
      var prefix := bindings[..last];
      assert DistinctKeys(prefix);
      DistinctKeysCount(prefix);
      assert BoundKeys(bindings) == BoundKeys(prefix) + {bindings[last].0} by {
        assert forall i :: 0 <= i < last ==> prefix[i] == bindings[i];
      }
      assert bindings[last].0 !in BoundKeys(prefix);
    }
  }

  /** Binding each entry once makes exactly as many binding calls as the map has entries. */
  lemma BindingCountMatchesMap(bindings: seq<Binding>, resources: map<string, ExternalResourceDescription>)
    requires BindsEachEntryOnce(bindings, resources)
    ensures |bindings| == |resources|
  {
    DistinctKeysCount(bindings);
  }

  /**
   * Bindings are the only part of the description the resource map affects: the
   * dependencies in particular are the class's declarations with or without a map.
   */
  lemma OnlyBindingsDependOnResources(
    d1: DescriptionValue, d2: DescriptionValue, c: FlowControllerClass,
    configurationParameters: Option<seq<ConfigurationParameter>>, configurationValues: Option<seq<Value>>,
    resources1: Option<map<string, ExternalResourceDescription>>,
    resources2: Option<map<string, ExternalResourceDescription>>)
    requires Describes(d1, c, configurationParameters, configurationValues, resources1)
    requires Describes(d2, c, configurationParameters, configurationValues, resources2)
    ensures d1.(bindings := []) == d2.(bindings := [])
    ensures d1.externalResourceDependencies == c.resourceDeclarations
  {
  }

  /** Two descriptions built from the same inputs bind the same entries, in whatever order. */
  lemma BindingsDeterminedUpToOrder(b1: seq<Binding>, b2: seq<Binding>, resources: map<string, ExternalResourceDescription>)
    requires BindsEachEntryOnce(b1, resources) && BindsEachEntryOnce(b2, resources)
    ensures (set i | 0 <= i < |b1| :: b1[i]) == (set i | 0 <= i < |b2| :: b2[i])
  {
  }
}
