/**
 * The base of the deployments: it holds the container it deploys into and creates
 * the deployment, configuration and datasource API services lazily, the first time
 * each is asked for, keeping each for later calls.
 */
module AbstractDeployment {
  import opened Wrappers

  /** The running container a deployment is injected with; only its identity matters here. */
  datatype Container = Container(name: string)

  /** An API service instance: the class it was created from and its place in creation order. */
  datatype Service = Service(className: string, id: nat)

  const DeploymentServiceClass := "AppserverIo\\Appserver\\Core\\Api\\DeploymentService"
  const ConfigurationServiceClass := "AppserverIo\\Appserver\\Core\\Api\\ConfigurationService"
  const DatasourceServiceClass := "AppserverIo\\Appserver\\Core\\Api\\DatasourceService"

  class AbstractDeployment {
    var container: Option<Container>
    var deploymentService: Option<Service>
    var configurationService: Option<Service>
    var datasourceService: Option<Service>
    /** How many services `newService` has created so far. */
    var created: nat

    constructor()
      ensures container == None && created == 0
      ensures deploymentService == None && configurationService == None && datasourceService == None
    {
      container := None;
      deploymentService := None;
      configurationService := None;
      datasourceService := None;
      created := 0;
    }

    /** `injectContainer`. */
    method InjectContainer(c: Container)
      modifies this
      ensures container == Some(c)
      ensures deploymentService == old(deploymentService) && configurationService == old(configurationService)
      ensures datasourceService == old(datasourceService) && created == old(created)
    {
      container := Some(c);
    }

    function GetContainer(): Option<Container>
      reads this
    {
      container
    }

    /** `newService`: a new instance of the named service class. */
    method NewService(className: string) returns (s: Service)
      modifies this
      ensures s == Service(className, old(created)) && created == old(created) + 1
      ensures container == old(container) && deploymentService == old(deploymentService)
      ensures configurationService == old(configurationService) && datasourceService == old(datasourceService)
    {
      s := Service(className, created);
      created := created + 1;
    }

    /** `getDeploymentService`: creates the service while the field is null, then returns the field. */
    method GetDeploymentService() returns (s: Service)
      modifies this
      ensures old(deploymentService).Some? ==> s == old(deploymentService).value && created == old(created)
      ensures old(deploymentService).None? ==> s == Service(DeploymentServiceClass, old(created)) && created == old(created) + 1
      ensures deploymentService == Some(s)
      ensures container == old(container)
      ensures configurationService == old(configurationService) && datasourceService == old(datasourceService)
    {
      if deploymentService == None {
        var service := NewService(DeploymentServiceClass);
        deploymentService := Some(service);
      }
      s := deploymentService.value;
    }

    /** `getConfigurationService`: creates the service while the field is null, then returns the field. */
    method GetConfigurationService() returns (s: Service)
      modifies this
      ensures old(configurationService).Some? ==> s == old(configurationService).value && created == old(created)
      ensures old(configurationService).None? ==> s == Service(ConfigurationServiceClass, old(created)) && created == old(created) + 1
      ensures configurationService == Some(s)
      ensures container == old(container)
      ensures deploymentService == old(deploymentService) && datasourceService == old(datasourceService)
    {
      if configurationService == None {
        var service := NewService(ConfigurationServiceClass);
        configurationService := Some(service);
      }
      s := configurationService.value;
    }

    /** `getDatasourceService`: creates the service while the field is null, then returns the field. */
    method GetDatasourceService() returns (s: Service)
      modifies this
      ensures old(datasourceService).Some? ==> s == old(datasourceService).value && created == old(created)
      ensures old(datasourceService).None? ==> s == Service(DatasourceServiceClass, old(created)) && created == old(created) + 1
      ensures datasourceService == Some(s)
      ensures container == old(container)
      ensures deploymentService == old(deploymentService) && configurationService == old(configurationService)
    {
      if datasourceService == None {
        var service := NewService(DatasourceServiceClass);
        datasourceService := Some(service);
      }
      s := datasourceService.value;
    }
  }

  /** `injectContainer(c)` followed by `getContainer()` yields c. */
  method InjectThenGet(d: AbstractDeployment, c: Container) returns (r: Option<Container>)
    modifies d
    ensures r == Some(c)
  {
    d.InjectContainer(c);
    r := d.GetContainer();
  }

  /**
   * Asking for the three services twice each creates each of them at most once:
   * the second answers are the first ones, and no more than three services are created.
   */
  method EachServiceCreatedOnce(d: AbstractDeployment) returns (first: seq<Service>, second: seq<Service>)
    modifies d
    ensures second == first
    ensures |first| == 3 && d.deploymentService == Some(first[0])
    ensures d.configurationService == Some(first[1]) && d.datasourceService == Some(first[2])
    ensures d.created <= old(d.created) + 3
    ensures old(d.deploymentService).Some? ==> first[0] == old(d.deploymentService).value
    ensures old(d.configurationService).Some? ==> first[1] == old(d.configurationService).value
    ensures old(d.datasourceService).Some? ==> first[2] == old(d.datasourceService).value
  {
    var a := d.GetDeploymentService();
    var b := d.GetConfigurationService();
    var c := d.GetDatasourceService();
    first := [a, b, c];
    a := d.GetDeploymentService();
    b := d.GetConfigurationService();
    c := d.GetDatasourceService();
    second := [a, b, c];
  }
}
