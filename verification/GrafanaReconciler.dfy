/** The reconciler of the Grafana resource, as far as it decides about plugins and the service. */
module GrafanaReconciler {
  import opened Seqs
  import opened PluginList
  import opened PluginsHelper
  import opened ControllerConfig
  import Rounds = PluginRounds
  import Rename = ServiceRename

  /** The resource: its service section, and the part of its status that the reconciler keeps. */
  class Grafana {
    var service: Rename.ServiceSpec
    var installedPlugins: seq<Plugin>
    var failedPlugins: seq<Plugin>
    var previousServiceName: string

    constructor (service: Rename.ServiceSpec)
      ensures this.service == service && PluginStatus() == Status([], []) && previousServiceName == ""
    {
      this.service := service;
      installedPlugins, failedPlugins, previousServiceName := [], [], "";
    }

    function PluginStatus(): Status
      reads this
    {
      Status(installedPlugins, failedPlugins)
    }
  }

  class GrafanaReconciler {
    const config: Config
    var pluginsEnv: string

    constructor (config: Config)
      ensures this.config == config && pluginsEnv == ""
    {
      this.config, pluginsEnv := config, "";
    }

    /** Asks the registry about every plugin and overwrites both status lists. */
    method ReconcilePlugins(cr: Grafana, plugins: seq<Plugin>, known: Rounds.Registry)
      modifies cr`installedPlugins, cr`failedPlugins
      ensures cr.PluginStatus() == Status(Filter(plugins, known), Filter(plugins, Rounds.Rejects(known)))
    {
      var validPlugins: seq<Plugin> := [];
      var failedPlugins: seq<Plugin> := [];
      for i := 0 to |plugins|
        invariant validPlugins == Filter(plugins[..i], known)
        invariant failedPlugins == Filter(plugins[..i], Rounds.Rejects(known))
      {
        FilterStep(plugins, i, known);
        FilterStep(plugins, i, Rounds.Rejects(known));
        if !known(plugins[i]) {
          failedPlugins := failedPlugins + [plugins[i]];
          continue;
        }
        validPlugins := validPlugins + [plugins[i]];
      }
      assert plugins[..|plugins|] == plugins;
      cr.installedPlugins := validPlugins;
      cr.failedPlugins := failedPlugins;
    }

    /** One plugin round: the new status follows from the requests in the order in which they happened to be
        gathered, the environment string from the new status, and an update forgets all dashboard hashes. */
    method GetGrafanaPluginsDesiredState(cr: Grafana, parse: Parser, known: Rounds.Registry) returns (updated: bool)
      modifies this`pluginsEnv, cr`installedPlugins, cr`failedPlugins, config`dashboards
      ensures exists order ::
        && Enumerates(order, config.plugins.Keys)
        && cr.PluginStatus() == Rounds.Round(parse, known, old(cr.PluginStatus()), Gathered(config.plugins, order))
        && (updated <==> Updated(old(cr.PluginStatus()), Picked(parse, Gathered(config.plugins, order))))
      ensures pluginsEnv == Env(cr.installedPlugins)
      ensures config.dashboards == if updated then Invalidated(old(config.dashboards)) else old(config.dashboards)
    {
      var requestedPlugins := config.GetAllPlugins();
      ghost var order :| Enumerates(order, config.plugins.Keys) && requestedPlugins == Gathered(config.plugins, order);
      var filteredPlugins;
      filteredPlugins, updated := FilterPlugins(parse, cr.PluginStatus(), requestedPlugins);
      if updated {
        ReconcilePlugins(cr, filteredPlugins, known);
        pluginsEnv := BuildEnv(cr.installedPlugins);
        config.InvalidateDashboards();
      } else {
        pluginsEnv := BuildEnv(cr.installedPlugins);
      }
      assert cr.PluginStatus() == Rounds.Round(parse, known, old(cr.PluginStatus()), Gathered(config.plugins, order));
    }

    /** The action for the service, given whether the service of the wanted name was read. */
    method GetGrafanaServiceDesiredState(cr: Grafana, accepts: string -> bool, services: set<string>) returns (action: Rename.Action)
      modifies cr`previousServiceName
      ensures (action, cr.previousServiceName) ==
        Rename.Decide(accepts, cr.service, Rename.State(services, old(cr.previousServiceName)))
    {
      var name := Rename.Wanted(cr.service);
      if name !in services {
        return Rename.Create(name);
      }
      if cr.previousServiceName != "" && name != "" {
        if cr.previousServiceName != name {
          if cr.service.None? {
            return Rename.Panic;
          }
          if accepts(cr.service.value) {
            var serviceName := cr.previousServiceName;
            cr.previousServiceName := "";
            return Rename.Delete(serviceName);
          }
        }
      }
      if cr.previousServiceName == "" {
        cr.previousServiceName := name;
      }
      return Rename.Update(name);
    }
  }
}
