/** The two state updates of the dashboard shell that keep the model
    lifecycle: recording a newly trained version and promoting one version
    to production (`handleVersionCreated` and `handleVersionDeployed` of
    `App.tsx`). Both registries are maps keyed by model type. */
module Lifecycle {
  import opened Common
  import opened Types

  type LifecycleRegistry = map<ModelType, ModelLifecycleData>
  type ModelRegistry = map<ModelType, MLResult>

  /** `prev[type] || { versions: [], productionVersionId: null }`. */
  function Current(reg: LifecycleRegistry, t: ModelType): (d: ModelLifecycleData)
    ensures t !in reg ==> |d.versions| == 0 && d.productionVersionId.None?
  {
    if t in reg then reg[t] else ModelLifecycleData([], None)
  }

  /** The newest version goes first; nothing else changes. */
  function VersionCreated(reg: LifecycleRegistry, t: ModelType, v: ModelVersion): (r: LifecycleRegistry)
    ensures r.Keys == reg.Keys + {t}
    ensures |r[t].versions| == |Current(reg, t).versions| + 1
    ensures r[t].versions[0] == v && r[t].versions[1..] == Current(reg, t).versions
    ensures r[t].productionVersionId == Current(reg, t).productionVersionId
    ensures forall t' :: t' in reg && t' != t ==> r[t'] == reg[t']
  {
    var cur := Current(reg, t);
    reg[t := cur.(versions := [v] + cur.versions)]
  }

  /** The status a version gets when `versionId` is deployed: production for
      the deployed id, the previous production version demoted to ready,
      every other status kept. */
  function Restatus(v: ModelVersion, versionId: string): (s: VersionStatus)
    ensures s == Production <==> v.id == versionId
    ensures v.id != versionId && v.status == Production ==> s == Ready
    ensures v.id != versionId && v.status != Production ==> s == v.status
  {
    if v.id == versionId then Production
    else if v.status == Production then Ready
    else v.status
  }

  /** One type's lifecycle after deploying `versionId`: exactly the
      versions with that id are in production, the former production
      versions are ready again, and apart from the status every version is
      kept where it was. */
  function Promote(d: ModelLifecycleData, versionId: string): (r: ModelLifecycleData)
    ensures r.productionVersionId == Some(versionId)
    ensures |r.versions| == |d.versions|
    ensures forall i :: 0 <= i < |d.versions| ==> (r.versions[i].status == Production <==> d.versions[i].id == versionId)
    ensures forall i :: 0 <= i < |d.versions| && d.versions[i].id != versionId ==>
              r.versions[i].status == (if d.versions[i].status == Production then Ready else d.versions[i].status)
    ensures forall i :: 0 <= i < |d.versions| ==> r.versions[i].(status := d.versions[i].status) == d.versions[i]
  {
    ModelLifecycleData(
      seq(|d.versions|, i requires 0 <= i < |d.versions| => d.versions[i].(status := Restatus(d.versions[i], versionId))),
      Some(versionId))
  }

  /** Both registries after deploying `versionId` of type `t` with its
      training `result`. */
  function VersionDeployed(reg: LifecycleRegistry, models: ModelRegistry, t: ModelType, versionId: string, result: MLResult)
    : (r: (LifecycleRegistry, ModelRegistry))
    ensures r.0.Keys == reg.Keys + {t} && r.1.Keys == models.Keys + {t}
    ensures r.0[t] == Promote(Current(reg, t), versionId)
    ensures r.1[t] == result
    ensures forall t' :: t' in reg && t' != t ==> r.0[t'] == reg[t']
    ensures forall t' :: t' in models && t' != t ==> r.1[t'] == models[t']
  {
    (reg[t := Promote(Current(reg, t), versionId)], models[t := result])
  }

  /** Every version marked production carries the recorded production id. */
  ghost predicate ProductionConsistent(d: ModelLifecycleData)
  {
    forall i :: 0 <= i < |d.versions| && d.versions[i].status == Production ==> d.productionVersionId == Some(d.versions[i].id)
  }

  /** After a deployment exactly the versions with the deployed id are in
      production, every other version keeps its identity and metrics, and
      the previous production version is ready again. */
  lemma DeployedIsSoleProduction(reg: LifecycleRegistry, models: ModelRegistry, t: ModelType, versionId: string, result: MLResult)
    ensures var before := Current(reg, t).versions;
            var after := VersionDeployed(reg, models, t, versionId, result).0[t];
            && ProductionConsistent(after)
            && (forall i :: 0 <= i < |before| ==> (after.versions[i].status == Production <==> before[i].id == versionId))
            && (forall i :: 0 <= i < |before| ==> after.versions[i].id == before[i].id && after.versions[i].metrics == before[i].metrics)
            && (forall i :: 0 <= i < |before| && before[i].status == Production && before[i].id != versionId ==> after.versions[i].status == Ready)
  {
  }

  /** Deploying the same version again changes nothing. */
  lemma DeployIdempotent(reg: LifecycleRegistry, models: ModelRegistry, t: ModelType, versionId: string, result: MLResult)
    ensures var once := VersionDeployed(reg, models, t, versionId, result);
            VersionDeployed(once.0, once.1, t, versionId, result) == once
  {
    var once := VersionDeployed(reg, models, t, versionId, result);
    var d := once.0[t];
    var twice := Promote(d, versionId);
    assert twice.versions == d.versions;
    assert once.0[t := twice] == once.0;
    assert once.1[t := result] == once.1;
  }

  /** Recording a version that is not yet in production keeps the
      production bookkeeping consistent. */
  lemma CreatedKeepsConsistent(reg: LifecycleRegistry, t: ModelType, v: ModelVersion)
    requires ProductionConsistent(Current(reg, t))
    requires v.status != Production
    ensures ProductionConsistent(VersionCreated(reg, t, v)[t])
  {
    var cur := Current(reg, t);
    var after := VersionCreated(reg, t, v)[t];
    forall i | 0 <= i < |after.versions| && after.versions[i].status == Production
      ensures after.productionVersionId == Some(after.versions[i].id)
    {
      assert i > 0;
      assert after.versions[i] == cur.versions[i - 1];
    }
  }

  /** Train, then deploy: the new version, at the head of the list, is the
      production version. */
  lemma CreateThenDeploy(reg: LifecycleRegistry, models: ModelRegistry, t: ModelType, v: ModelVersion)
    ensures var created := VersionCreated(reg, t, v);
            var deployed := VersionDeployed(created, models, t, v.id, v.result);
            && deployed.0[t].versions[0].status == Production
            && deployed.0[t].versions[0].id == v.id
            && deployed.0[t].productionVersionId == Some(v.id)
            && deployed.1[t] == v.result
  {
  }
}
