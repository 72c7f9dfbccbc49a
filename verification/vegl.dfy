/**
 * The job aggregate of the portal: a `VEGLJob` owns its downloads, its
 * solution ids, its annotations, its free-form properties and a set of
 * `VLJobSolution`s, each of which owns a set of `VglParameter`s. Every
 * collection is a Java object that may be `null`; here a nullable collection
 * is an `Option` of a Dafny value, and a nullable reference is a `C?`.
 * Java's `HashSet`s of these entities hash by identity (no `hashCode` is
 * overridden), so they are Dafny sets of references.
 */
module Vegl {
  import opened Wrappers

  /** The outcome of a Java expression that may throw a NullPointerException. */
  datatype Eval<T> = Ok(value: T) | NullDereference

  /**
   * A data download attached to a job. Its descriptive fields (name, url,
   * local path, ...) are summarised by `source`.
   */
  class VglDownload {
    var id: Option<int>
    var parent: VEGLJob?
    var source: Option<string>

    constructor(id: Option<int>, source: Option<string>)
      ensures this.id == id && this.source == source && parent == null
    {
      this.id := id;
      this.source := source;
      parent := null;
    }

    /** `clone()`: a new download with the same fields. */
    method Clone() returns (c: VglDownload)
      ensures fresh(c)
      ensures c.id == id && c.parent == parent && c.source == source
    {
      c := new VglDownload(id, source);
      c.parent := parent;
    }
  }

  /** A named, loosely typed value belonging to a job solution. */
  class VglParameter {
    var id: Option<int>
    var name: Option<string>
    var value: Option<string>
    var jobSolution: VLJobSolution?

    /** `VglParameter()`: everything null. */
    constructor Empty()
      ensures id.None? && name.None? && value.None? && jobSolution == null
    {
      id, name, value, jobSolution := None, None, None, null;
    }

    /** `VglParameter(name, value)`: no id and no owning solution. */
    constructor Named(name: Option<string>, value: Option<string>)
      ensures id.None? && this.name == name && this.value == value && jobSolution == null
    {
      id, this.name, this.value, jobSolution := None, name, value, null;
    }

    /** `VglParameter(name, value, jobSolution)`: no id. */
    constructor Owned(name: Option<string>, value: Option<string>, jobSolution: VLJobSolution?)
      ensures id.None? && this.name == name && this.value == value && this.jobSolution == jobSolution
    {
      id, this.name, this.value, this.jobSolution := None, name, value, jobSolution;
    }

    /** `VglParameter(id, name, value, jobSolution)`: fully populated. */
    constructor(id: Option<int>, name: Option<string>, value: Option<string>, jobSolution: VLJobSolution?)
      ensures this.id == id && this.name == name && this.value == value && this.jobSolution == jobSolution
    {
      this.id, this.name, this.value, this.jobSolution := id, name, value, jobSolution;
    }

    /** `getSolution()`: the owning solution's solution id; throws when there is no owner. */
    function GetSolution(): (r: Eval<Option<string>>)
      reads this, jobSolution
      ensures r.NullDereference? <==> jobSolution == null
      ensures r.Ok? ==> r.value == jobSolution.solutionId
    {
      if jobSolution == null then NullDereference else Ok(jobSolution.solutionId)
    }

    /**
     * `equals(o)`: compares the owning solutions' ids, then the names, then
     * the values. Each `x.equals(y)` throws when `x` is null and is false
     * when only `y` is; `jobSolution.getId()` throws on a missing owner.
     */
    function Equals(o: object?): (r: Eval<bool>)
      reads this, jobSolution, o, if o is VglParameter then {(o as VglParameter).jobSolution} else {}
      ensures !(o is VglParameter) ==> r == Ok(false)
      ensures r == Ok(true) <==>
        o is VglParameter && SameKey(o as VglParameter) && name.Some? && value.Some?
      ensures r.NullDereference? <==>
        o is VglParameter &&
        (jobSolution == null || (o as VglParameter).jobSolution == null || jobSolution.id.None? ||
         (jobSolution.id == (o as VglParameter).jobSolution.id &&
          (name.None? || (name == (o as VglParameter).name && value.None?))))
    {
      if !(o is VglParameter) then Ok(false)
      else
        var other := o as VglParameter;
        if jobSolution == null || other.jobSolution == null || jobSolution.id.None? then NullDereference
        else if jobSolution.id != other.jobSolution.id then Ok(false)
        else if name.None? then NullDereference
        else if name != other.name then Ok(false)
        else if value.None? then NullDereference
        else Ok(value == other.value)
    }

    /** Both parameters have owners with the same id, the same name and the same value. */
    predicate SameKey(other: VglParameter)
      reads this, jobSolution, other, other.jobSolution
    {
      jobSolution != null && other.jobSolution != null && jobSolution.id.Some? &&
      jobSolution.id == other.jobSolution.id && name == other.name && value == other.value
    }

    /**
     * `clone()`: a new parameter with the same name, value and owner and no
     * id; it is equal to its original whenever the original can be compared.
     */
    method Clone() returns (c: VglParameter)
      ensures fresh(c)
      ensures c.id.None? && c.name == name && c.value == value && c.jobSolution == jobSolution
      ensures jobSolution != null && jobSolution.id.Some? && name.Some? && value.Some? ==>
              c.Equals(this) == Ok(true) && Equals(c) == Ok(true)
    {
      c := new VglParameter.Empty();
      c.name := name;
      c.value := value;
      c.jobSolution := jobSolution;
    }
  }

  /** Parameter equality is symmetric wherever it holds. */
  lemma ParameterEqualsSymmetric(p: VglParameter, q: VglParameter)
    requires p.Equals(q) == Ok(true)
    ensures q.Equals(p) == Ok(true)
  {
  }

  /** Parameter equality is transitive. */
  lemma ParameterEqualsTransitive(p: VglParameter, q: VglParameter, s: VglParameter)
    requires p.Equals(q) == Ok(true) && q.Equals(s) == Ok(true)
    ensures p.Equals(s) == Ok(true)
  {
  }

  /**
   * A parameter without an owning solution cannot be compared to another
   * parameter at all: `equals` throws, even against itself.
   */
  lemma OwnerlessParameterEqualsThrows(p: VglParameter, q: VglParameter)
    requires p.jobSolution == null
    ensures p.Equals(q) == NullDereference
    ensures p.Equals(p) == NullDereference
  {
  }

  /**
   * The comparison the parameter unit test makes between `new VglParameter("name1", "v1")`
   * and `new VglParameter("name1", "v2")`: with no owning solution, it throws.
   */
  method UnownedParametersCompare() returns (r: Eval<bool>)
    ensures r == NullDereference
  {
    var p1 := new VglParameter.Named(Some("name1"), Some("v1"));
    var p2 := new VglParameter.Named(Some("name1"), Some("v2"));
    r := p1.Equals(p2);
  }

  /** The link between a job and one solution, with the solution's parameter values. */
  class VLJobSolution {
    var id: Option<int>
    var job: VEGLJob?
    var solutionId: Option<string>
    var jobParameters: Option<set<VglParameter>>

    /** `VLJobSolution()`: everything null. */
    constructor Empty()
      ensures id.None? && job == null && solutionId.None? && jobParameters.None?
    {
      id, job, solutionId, jobParameters := None, null, None, None;
    }

    /** `VLJobSolution(job, solutionId)`: no id and no parameters. */
    constructor ForJob(job: VEGLJob?, solutionId: Option<string>)
      ensures id.None? && this.job == job && this.solutionId == solutionId && jobParameters.None?
    {
      id, this.job, this.solutionId, jobParameters := None, job, solutionId, None;
    }

    /**
     * `VLJobSolution(id, job, solutionId)` as written: it forwards `null`
     * instead of `id`, so the id it is given is lost.
     */
    constructor WithId(id: Option<int>, job: VEGLJob?, solutionId: Option<string>)
      ensures this.id.None? && this.job == job && this.solutionId == solutionId && jobParameters.None?
    {
      this.id, this.job, this.solutionId, jobParameters := None, job, solutionId, None;
    }

    /** `VLJobSolution(id, job, solutionId)` as evidently intended: the id is kept. */
    constructor WithIdKept(id: Option<int>, job: VEGLJob?, solutionId: Option<string>)
      ensures this.id == id && this.job == job && this.solutionId == solutionId && jobParameters.None?
    {
      this.id, this.job, this.solutionId, jobParameters := id, job, solutionId, None;
    }

    /** `VLJobSolution(id, job, solutionId, jobParameters)`: fully populated. */
    constructor(id: Option<int>, job: VEGLJob?, solutionId: Option<string>, jobParameters: Option<set<VglParameter>>)
      ensures this.id == id && this.job == job && this.solutionId == solutionId
      ensures this.jobParameters == jobParameters
    {
      this.id, this.job, this.solutionId, this.jobParameters := id, job, solutionId, jobParameters;
    }

    /** `getJobParameters()`: the parameters, or an empty set (never null) when unset. */
    function GetJobParameters(): (ps: set<VglParameter>)
      reads this
      ensures jobParameters.Some? ==> ps == jobParameters.value
      ensures jobParameters.None? ==> ps == {}
    {
      jobParameters.GetOr({})
    }

    /**
     * `setJobParameters(ps)`: the set is cleared and refilled with `ps`
     * (left empty when `ps` is null), each parameter being re-owned by this
     * solution.
     */
    method SetJobParameters(ps: Option<set<VglParameter>>)
      modifies this`jobParameters, ps.GetOr({})`jobSolution
      ensures jobParameters == Some(ps.GetOr({}))
      ensures forall p | p in ps.GetOr({}) :: p.jobSolution == this
    {
      jobParameters := Some({});
      if ps.Some? {
        var rest, added := ps.value, {};
        while rest != {}
          invariant rest + added == ps.value
          invariant jobParameters == Some(added)
          invariant forall p | p in added :: p.jobSolution == this
          decreases rest
        {
          var p :| p in rest;
          p.jobSolution := this;
          jobParameters := Some(jobParameters.value + {p});
          rest, added := rest - {p}, added + {p};
        }
      }
    }

    /** `addJobParameter(p)`: creates the set when missing and adds `p` to it. */
    method AddJobParameter(parameter: VglParameter)
      modifies this`jobParameters
      ensures jobParameters == Some(old(GetJobParameters()) + {parameter})
    {
      if jobParameters.None? {
        jobParameters := Some({});
      }
      jobParameters := Some(jobParameters.value + {parameter});
    }

    /**
     * `equals(obj)`: identical objects are equal; otherwise both must be
     * solutions with the same solution id and jobs with the same id. A
     * missing solution id, a missing job or a missing job id on this side,
     * or a missing job on the other side, throws.
     */
    function Equals(obj: object?): (r: Eval<bool>)
      reads this, job, obj, if obj is VLJobSolution then {(obj as VLJobSolution).job} else {}
      ensures obj == this ==> r == Ok(true)
      ensures !(obj is VLJobSolution) ==> r == Ok(false)
      ensures r == Ok(true) <==> obj == this || (obj is VLJobSolution && SameKey(obj as VLJobSolution))
      ensures r.NullDereference? ==>
        obj != this && obj is VLJobSolution &&
        (solutionId.None? || job == null || job.id.None? || (obj as VLJobSolution).job == null)
    {
      if this == obj then Ok(true)
      else if obj == null then Ok(false)
      else if !(obj is VLJobSolution) then Ok(false)
      else
        var other := obj as VLJobSolution;
        if solutionId.None? then NullDereference
        else if solutionId != other.solutionId then Ok(false)
        else if job == null || other.job == null || job.id.None? then NullDereference
        else Ok(job.id == other.job.id)
    }

    /** Both solutions name the same solution and belong to jobs with the same id. */
    predicate SameKey(other: VLJobSolution)
      reads this, job, other, other.job
    {
      solutionId.Some? && solutionId == other.solutionId &&
      job != null && other.job != null && job.id.Some? && job.id == other.job.id
    }

    /**
     * `clone()`: a new solution for the same job and solution id, without an
     * id, holding one fresh clone of every parameter, each clone owned by the
     * new solution. `cloneOf` maps every original parameter to its clone. The
     * clone is equal to its original whenever the original can be compared.
     * Java iterates the raw parameter set, so it must not be null.
     */
    method Clone() returns (c: VLJobSolution, ghost cloneOf: map<VglParameter, VglParameter>)
      requires jobParameters.Some?
      ensures fresh(c) && c.jobParameters.Some?
      ensures c.id.None? && c.job == job && c.solutionId == solutionId
      ensures ClonedParameters(jobParameters.value, c.jobParameters.value, cloneOf, c)
      ensures forall p | p in cloneOf :: fresh(cloneOf[p])
      ensures solutionId.Some? && job != null && job.id.Some? ==> c.Equals(this) == Ok(true)
    {
      c := new VLJobSolution.Empty();
      c.job := job;
      c.solutionId := solutionId;
      var newParameters: set<VglParameter> := {};
      cloneOf := map[];
      var rest := jobParameters.value;
      while rest != {}
        invariant rest <= jobParameters.value
        invariant cloneOf.Keys == jobParameters.value - rest && cloneOf.Values == newParameters
        invariant forall p | p in cloneOf :: fresh(cloneOf[p]) && cloneOf[p].id.None? &&
                    cloneOf[p].name == p.name && cloneOf[p].value == p.value
        invariant Injective(cloneOf)
        invariant c.id.None? && c.job == job && c.solutionId == solutionId
        decreases rest
      {
        var p :| p in rest;
        var q := p.Clone();
        MapValuesUpdate(cloneOf, p, q);
        cloneOf := cloneOf[p := q];
        newParameters := newParameters + {q};
        rest := rest - {p};
      }
      c.SetJobParameters(Some(newParameters));
    }
  }

  /** Adding a new key with a new value adds exactly that value. */
  lemma MapValuesUpdate<K, V>(m: map<K, V>, k: K, v: V)
    requires k !in m && v !in m.Values
    ensures m[k := v].Values == m.Values + {v}
    ensures Injective(m) ==> Injective(m[k := v])
  {
    forall w | w in m[k := v].Values ensures w in m.Values + {v} {
      var j :| j in m[k := v] && m[k := v][j] == w;
      if j != k { assert m[j] == w; }
    }
    forall w | w in m.Values ensures w in m[k := v].Values {
      var j :| j in m && m[j] == w;
      assert m[k := v][j] == w;
    }
    assert m[k := v][k] == v;
  }

  /**
   * `c` is a clone of solution `orig`: no id, the same solution id, and one
   * clone of each of its parameters, owned by `c`.
   */
  ghost predicate SolutionCloned(orig: VLJobSolution, c: VLJobSolution, cloneOf: map<VglParameter, VglParameter>)
    reads orig`solutionId, orig`jobParameters, c`id, c`solutionId, c`jobParameters
    reads orig.jobParameters.GetOr({}), c.jobParameters.GetOr({})
  {
    c.id.None? && c.solutionId == orig.solutionId && orig.jobParameters.Some? && c.jobParameters.Some? &&
    ClonedParameters(orig.jobParameters.value, c.jobParameters.value, cloneOf, c)
  }

  /**
   * `clones` are `orig` cloned one by one, in order: no ids, the same
   * descriptions, and `parent` as their parent.
   */
  ghost predicate DownloadsCloned(orig: seq<VglDownload>, clones: seq<VglDownload>, parent: VEGLJob)
    reads orig, clones
  {
    |clones| == |orig| &&
    forall i | 0 <= i < |orig| ::
      clones[i].id.None? && clones[i].source == orig[i].source && clones[i].parent == parent
  }

  /** No two keys share a value. */
  ghost predicate Injective<K, V>(m: map<K, V>) {
    forall a, b | a in m && b in m && a != b :: m[a] != m[b]
  }

  /**
   * `copies` are one-to-one clones of `orig` under `cloneOf`: same name and
   * value, no id, owned by `owner`.
   */
  ghost predicate ClonedParameters(orig: set<VglParameter>, copies: set<VglParameter>,
                                   cloneOf: map<VglParameter, VglParameter>, owner: VLJobSolution)
    reads orig, copies
  {
    cloneOf.Keys == orig && cloneOf.Values == copies && Injective(cloneOf) &&
    forall p | p in orig ::
      cloneOf[p].id.None? && cloneOf[p].name == p.name && cloneOf[p].value == p.value &&
      cloneOf[p].jobSolution == owner
  }

  /** Solution equality is symmetric wherever it holds. */
  lemma SolutionEqualsSymmetric(a: VLJobSolution, b: VLJobSolution)
    requires a.Equals(b) == Ok(true)
    ensures b.Equals(a) == Ok(true)
  {
  }

  /**
   * The id lost by the three-argument constructor: a solution built with id
   * 7 has no id.
   */
  method ConstructedIdIsLost() returns (s: VLJobSolution)
    ensures s.id.None? && s.solutionId == Some("solution-1")
  {
    s := new VLJobSolution.WithId(Some(7), null, Some("solution-1"));
  }

  /** With the id kept, a solution built with id 7 has id 7. */
  method ConstructedIdIsKept() returns (s: VLJobSolution)
    ensures s.id == Some(7) && s.solutionId == Some("solution-1")
  {
    s := new VLJobSolution.WithIdKept(Some(7), null, Some("solution-1"));
  }

  /**
   * The loop of the solution block of `VEGLJob.safeClone()`: one fresh clone
   * per solution, as `solutionClones` and `parameterClones` record.
   */
  method CloneEach(solutions: set<VLJobSolution>)
    returns (clones: set<VLJobSolution>,
             ghost solutionClones: map<VLJobSolution, VLJobSolution>,
             ghost parameterClones: map<VLJobSolution, map<VglParameter, VglParameter>>)
    requires forall s | s in solutions :: s.jobParameters.Some?
    ensures solutionClones.Keys == solutions && solutionClones.Values == clones
    ensures Injective(solutionClones) && parameterClones.Keys == solutions
    ensures forall s | s in solutionClones ::
              fresh(solutionClones[s]) && SolutionCloned(s, solutionClones[s], parameterClones[s])
    ensures forall s, p | s in parameterClones && p in parameterClones[s] :: fresh(parameterClones[s][p])
  {
    clones, solutionClones, parameterClones := {}, map[], map[];
    var rest := solutions;
    while rest != {}
      invariant rest <= solutions
      invariant solutionClones.Keys == solutions - rest && solutionClones.Values == clones
      invariant Injective(solutionClones) && parameterClones.Keys == solutionClones.Keys
      invariant forall s | s in solutionClones ::
                  fresh(solutionClones[s]) && SolutionCloned(s, solutionClones[s], parameterClones[s])
      invariant forall s, p | s in parameterClones && p in parameterClones[s] :: fresh(parameterClones[s][p])
      decreases rest
    {
      var solution :| solution in rest;
      var clone;
      ghost var cloneOf;
      clone, cloneOf := solution.Clone();
      MapValuesUpdate(solutionClones, solution, clone);
      solutionClones := solutionClones[solution := clone];
      parameterClones := parameterClones[solution := cloneOf];
      clones := clones + {clone};
      rest := rest - {solution};
    }
  }

  /** The scalar fields `safeClone` carries over (dates as epoch milliseconds). */
  datatype JobDetails = JobDetails(
    computeInstanceId: Option<string>, computeInstanceKey: Option<string>,
    computeInstanceType: Option<string>, computeServiceId: Option<string>,
    computeVmId: Option<string>, computeVmRunCommand: Option<string>,
    description: Option<string>, emailAddress: Option<string>, name: Option<string>,
    registeredUrl: Option<string>, seriesId: Option<int>, status: Option<string>,
    storageServiceId: Option<string>, storageBaseKey: Option<string>, submitDate: Option<int>,
    user: Option<string>, storageBucket: Option<string>, walltime: Option<int>,
    executeDate: Option<int>, promsReportUrl: Option<string>, containsPersistentVolumes: bool)

  /** A processing job submitted to a cloud provider. */
  class VEGLJob {
    var id: Option<int>
    var registeredUrl: Option<string>
    var seriesId: Option<int>
    var emailNotification: bool
    var processTimeLog: Option<string>
    var storageBucket: Option<string>
    var promsReportUrl: Option<string>
    var computeVmRunCommand: Option<string>
    /** Maximum run time in minutes; null or 0 means no limit. */
    var walltime: Option<int>
    var containsPersistentVolumes: bool
    var executeDate: Option<int>
    var jobSolutions: Option<set<VLJobSolution>>
    var jobDownloads: Option<seq<VglDownload>>
    var solutionIds: Option<set<string>>
    var annotations: Option<set<string>>
    var name: Option<string>
    var description: Option<string>
    var emailAddress: Option<string>
    var user: Option<string>
    var submitDate: Option<int>
    var processDate: Option<int>
    var status: Option<string>
    var computeVmId: Option<string>
    var computeInstanceId: Option<string>
    var computeInstanceType: Option<string>
    var computeInstanceKey: Option<string>
    var computeServiceId: Option<string>
    var storageBaseKey: Option<string>
    var storageServiceId: Option<string>
    var properties: map<string, string>

    /** `VEGLJob()`: every field null or false, and no properties. */
    constructor()
      ensures id.None? && !emailNotification && processTimeLog.None? && processDate.None?
      ensures jobSolutions.None? && jobDownloads.None? && solutionIds.None? && annotations.None?
      ensures properties == map[]
      ensures Details() == JobDetails(None, None, None, None, None, None, None, None, None, None,
                                      None, None, None, None, None, None, None, None, None, None, false)
    {
      id, registeredUrl, seriesId, emailNotification, processTimeLog := None, None, None, false, None;
      storageBucket, promsReportUrl, computeVmRunCommand, walltime := None, None, None, None;
      containsPersistentVolumes, executeDate := false, None;
      jobSolutions, jobDownloads, solutionIds, annotations := None, None, None, None;
      name, description, emailAddress, user := None, None, None, None;
      submitDate, processDate, status, computeVmId := None, None, None, None;
      computeInstanceId, computeInstanceType, computeInstanceKey := None, None, None;
      computeServiceId, storageBaseKey, storageServiceId := None, None, None;
      properties := map[];
    }

    /**
     * `new VEGLJob()` followed by the setter calls of `safeClone()`: a job
     * with the given `Details` and every other field null or false.
     */
    constructor WithDetails(details: JobDetails)
      ensures id.None? && !emailNotification && processTimeLog.None? && processDate.None?
      ensures jobSolutions.None? && jobDownloads.None? && solutionIds.None? && annotations.None?
      ensures properties == map[] && Details() == details
    {
      id := None;
      emailNotification := false;
      processTimeLog := None;
      processDate := None;
      jobSolutions := None;
      jobDownloads := None;
      solutionIds := None;
      annotations := None;
      properties := map[];
      computeInstanceId := details.computeInstanceId;
      computeInstanceKey := details.computeInstanceKey;
      computeInstanceType := details.computeInstanceType;
      computeServiceId := details.computeServiceId;
      computeVmId := details.computeVmId;
      computeVmRunCommand := details.computeVmRunCommand;
      description := details.description;
      emailAddress := details.emailAddress;
      name := details.name;
      registeredUrl := details.registeredUrl;
      seriesId := details.seriesId;
      status := details.status;
      storageServiceId := details.storageServiceId;
      storageBaseKey := details.storageBaseKey;
      submitDate := details.submitDate;
      user := details.user;
      storageBucket := details.storageBucket;
      walltime := details.walltime;
      executeDate := details.executeDate;
      promsReportUrl := details.promsReportUrl;
      containsPersistentVolumes := details.containsPersistentVolumes;
    }

    /** The fields `safeClone` copies. */
    function Details(): JobDetails
      reads this
    {
      JobDetails(computeInstanceId, computeInstanceKey, computeInstanceType, computeServiceId,
                 computeVmId, computeVmRunCommand, description, emailAddress, name,
                 registeredUrl, seriesId, status, storageServiceId, storageBaseKey, submitDate,
                 user, storageBucket, walltime, executeDate, promsReportUrl, containsPersistentVolumes)
    }

    /** `getProperty(key)`: the stored value, or null. */
    function GetProperty(key: string): (v: Option<string>)
      reads this
      ensures v.Some? <==> key in properties
      ensures v.Some? ==> properties[key] == v.value
    {
      if key in properties then Some(properties[key]) else None
    }

    /**
     * `setProperty(key, value)`: stores `value` under `key`, or removes `key`
     * when `value` is null; either way returns the previous value. Afterwards
     * `getProperty(key)` is `value` and every other key reads as before.
     */
    method SetProperty(key: string, value: Option<string>) returns (previous: Option<string>)
      modifies this`properties
      ensures value.None? ==> properties == old(properties) - {key}
      ensures value.Some? ==> properties == old(properties)[key := value.value]
      ensures previous == old(GetProperty(key))
      ensures GetProperty(key) == value
      ensures forall k | k != key :: GetProperty(k) == old(GetProperty(k))
    {
      previous := GetProperty(key);
      if value.None? {
        properties := properties - {key};
      } else {
        properties := properties[key := value.value];
      }
    }

    /** `getJobDownloads()`: the downloads, or an empty list (never null). */
    function GetJobDownloads(): (ds: seq<VglDownload>)
      reads this
      ensures jobDownloads.Some? ==> ds == jobDownloads.value
      ensures jobDownloads.None? ==> ds == []
    {
      jobDownloads.GetOr([])
    }

    /**
     * `setJobDownloads(ds)`: the list is cleared and refilled with `ds` in
     * order (left empty when `ds` is null), each download getting this job
     * as its parent.
     */
    method SetJobDownloads(ds: Option<seq<VglDownload>>)
      modifies this`jobDownloads, ds.GetOr([])`parent
      ensures jobDownloads == Some(ds.GetOr([]))
      ensures forall d | d in ds.GetOr([]) :: d.parent == this
    {
      jobDownloads := Some([]);
      if ds.Some? {
        var i := 0;
        while i < |ds.value|
          invariant 0 <= i <= |ds.value|
          invariant jobDownloads == Some(ds.value[..i])
          invariant forall j | 0 <= j < i :: ds.value[j].parent == this
        {
          ds.value[i].parent := this;
          jobDownloads := Some(jobDownloads.value + [ds.value[i]]);
          assert ds.value[..i + 1] == ds.value[..i] + [ds.value[i]];
          i := i + 1;
        }
        assert ds.value[..i] == ds.value;
      }
    }

    /** `getAnnotations()`: the annotations, or an empty set (never null). */
    function GetAnnotations(): (a: set<string>)
      reads this
      ensures annotations.Some? ==> a == annotations.value
      ensures annotations.None? ==> a == {}
    {
      annotations.GetOr({})
    }

    /**
     * `setAnnotations(c)`: the annotations are created or cleared, then
     * become exactly the elements of `c`; previous ones are discarded. A null
     * `c` throws at `addAll`, after the annotations have been cleared.
     */
    method SetAnnotations(c: Option<seq<string>>) returns (r: Eval<()>)
      modifies this`annotations
      ensures annotations.Some?
      ensures c.None? ==> r == NullDereference && GetAnnotations() == {}
      ensures c.Some? ==> r == Ok(()) && forall a :: a in GetAnnotations() <==> a in c.value
    {
      annotations := Some({});
      if c.None? {
        return NullDereference;
      }
      annotations := Some(set a | a in c.value);
      return Ok(());
    }

    /** `getJobSolutions()`: the solutions, or an empty set (never null). */
    function GetJobSolutions(): (s: set<VLJobSolution>)
      reads this
      ensures jobSolutions.Some? ==> s == jobSolutions.value
      ensures jobSolutions.None? ==> s == {}
    {
      jobSolutions.GetOr({})
    }

    /**
     * `setJobSolutions(s)`: the set is cleared and refilled with `s` (left
     * empty when `s` is null), each solution getting this job as its job.
     */
    method SetJobSolutions(s: Option<set<VLJobSolution>>)
      modifies this`jobSolutions, s.GetOr({})`job
      ensures jobSolutions == Some(s.GetOr({}))
      ensures forall js | js in s.GetOr({}) :: js.job == this
    {
      jobSolutions := Some({});
      if s.Some? {
        var rest, added := s.value, {};
        while rest != {}
          invariant rest + added == s.value
          invariant jobSolutions == Some(added)
          invariant forall js | js in added :: js.job == this
          decreases rest
        {
          var js :| js in rest;
          js.job := this;
          jobSolutions := Some(jobSolutions.value + {js});
          rest, added := rest - {js}, added + {js};
        }
      }
    }

    /** `addJobSolution(js)`: creates the set when missing and adds `js` to it. */
    method AddJobSolution(js: VLJobSolution)
      modifies this`jobSolutions
      ensures jobSolutions == Some(old(GetJobSolutions()) + {js})
    {
      if jobSolutions.None? {
        jobSolutions := Some({});
      }
      jobSolutions := Some(jobSolutions.value + {js});
    }

    /**
     * `getJobParameters()`: a new set holding every parameter of every
     * solution of this job; empty when there are no solutions.
     */
    method GetJobParameters() returns (ps: set<VglParameter>)
      ensures forall p :: p in ps <==> exists s :: s in GetJobSolutions() && p in s.GetJobParameters()
    {
      ps := {};
      var rest := GetJobSolutions();
      while rest != {}
        invariant rest <= GetJobSolutions()
        invariant forall p :: p in ps <==> exists s :: s in GetJobSolutions() - rest && p in s.GetJobParameters()
        decreases rest
      {
        var solution :| solution in rest;
        var todo := solution.GetJobParameters();
        ghost var before := ps;
        while todo != {}
          invariant todo <= solution.GetJobParameters()
          invariant ps == before + (solution.GetJobParameters() - todo)
          decreases todo
        {
          var parameter :| parameter in todo;
          ps := ps + {parameter};
          todo := todo - {parameter};
        }
        rest := rest - {solution};
      }
    }

    /** `addSolutionId(id)`: adds to the solution id set, which must exist. */
    method AddSolutionId(solutionId: string)
      requires solutionIds.Some?
      modifies this`solutionIds
      ensures solutionIds == Some(old(solutionIds.value) + {solutionId})
    {
      solutionIds := Some(solutionIds.value + {solutionId});
    }

    /**
     * The download block of `safeClone()`: this job's downloads become fresh
     * clones of `other`'s, in order, each with its id cleared and this job as
     * its parent.
     */
    method CloneDownloadsFrom(other: VEGLJob)
      requires other != this
      modifies this`jobDownloads
      ensures DownloadsCloned(other.GetJobDownloads(), GetJobDownloads(), this)
      ensures forall d | d in GetJobDownloads() :: fresh(d)
      ensures Details() == old(Details())
    {
      var downloads := other.GetJobDownloads();
      var clones: seq<VglDownload> := [];
      var i := 0;
      while i < |downloads|
        invariant 0 <= i <= |downloads| && |clones| == i
        invariant forall j | 0 <= j < i :: fresh(clones[j]) && clones[j].id.None? && clones[j].source == downloads[j].source
      {
        var clone := downloads[i].Clone();
        clone.id := None;
        clones := clones + [clone];
        i := i + 1;
      }
      SetJobDownloads(Some(clones));
      forall j | 0 <= j < |clones| ensures clones[j].parent == this {
        assert clones[j] in Some(clones).GetOr([]);
      }
    }

    /**
     * The solution block of `safeClone()`: this job's solutions become fresh
     * clones of `other`'s (see `VLJobSolution.Clone`), each with this job as
     * its job. `solutionClones` maps each solution of `other` to its clone and
     * `parameterClones` maps it to the map from its parameters to the clone's.
     * Java iterates the raw sets, so neither the solution set nor any
     * parameter set may be null.
     */
    method CloneSolutionsFrom(other: VEGLJob)
      returns (ghost solutionClones: map<VLJobSolution, VLJobSolution>,
               ghost parameterClones: map<VLJobSolution, map<VglParameter, VglParameter>>)
      requires other != this && other.jobSolutions.Some?
      requires forall s | s in other.jobSolutions.value :: s.jobParameters.Some?
      modifies this`jobSolutions
      ensures solutionClones.Keys == other.jobSolutions.value && Injective(solutionClones)
      ensures jobSolutions == Some(solutionClones.Values)
      ensures parameterClones.Keys == other.jobSolutions.value
      ensures forall s | s in solutionClones ::
                fresh(solutionClones[s]) && solutionClones[s].job == this &&
                SolutionCloned(s, solutionClones[s], parameterClones[s])
      ensures forall s, p | s in parameterClones && p in parameterClones[s] :: fresh(parameterClones[s][p])
      ensures Details() == old(Details())
    {
      var clones;
      clones, solutionClones, parameterClones := CloneEach(other.jobSolutions.value);
      SetJobSolutions(Some(clones));
      forall s | s in solutionClones ensures solutionClones[s].job == this {
        assert solutionClones[s] in Some(clones).GetOr({});
      }
    }

    /**
     * `safeClone()`: a new job sharing no object with this one. It carries the
     * scalar fields of `Details`, the properties and the solution ids; its
     * downloads are fresh clones in the same order, without ids and with the
     * new job as parent; its solutions are fresh clones (see `CloneSolutionsFrom`)
     * whose job is the new job. Its id, annotations, notification flag and
     * processing fields are left unset. Java copies the solution ids with
     * `new HashSet<>(...)` and iterates the raw solution set, so neither may
     * be null.
     */
    method SafeClone() returns (newJob: VEGLJob,
                                ghost solutionClones: map<VLJobSolution, VLJobSolution>,
                                ghost parameterClones: map<VLJobSolution, map<VglParameter, VglParameter>>)
      requires solutionIds.Some? && jobSolutions.Some?
      requires forall s | s in jobSolutions.value :: s.jobParameters.Some?
      ensures fresh(newJob)
      ensures newJob.Details() == Details() && newJob.IsWalltimeSet() == IsWalltimeSet()
      ensures newJob.id.None? && newJob.annotations.None? && !newJob.emailNotification
      ensures newJob.processTimeLog.None? && newJob.processDate.None?
      ensures newJob.properties == properties && newJob.solutionIds == solutionIds
      ensures DownloadsCloned(GetJobDownloads(), newJob.GetJobDownloads(), newJob)
      ensures forall d | d in newJob.GetJobDownloads() :: fresh(d)
      ensures solutionClones.Keys == jobSolutions.value && Injective(solutionClones)
      ensures newJob.jobSolutions == Some(solutionClones.Values)
      ensures parameterClones.Keys == jobSolutions.value
      ensures forall s | s in solutionClones ::
                fresh(solutionClones[s]) && solutionClones[s].job == newJob &&
                SolutionCloned(s, solutionClones[s], parameterClones[s])
      ensures forall s, p | s in parameterClones && p in parameterClones[s] :: fresh(parameterClones[s][p])
    {
      var ids := solutionIds.value;
      newJob := new VEGLJob.WithDetails(Details());
      newJob.CopyProperties(this);
      newJob.solutionIds := Some(ids);
      solutionClones, parameterClones := newJob.CloneSolutionsFrom(this);
      newJob.CloneDownloadsFrom(this);
    }

    /** The property loop of `safeClone()`: every property of `other` is set on this job. */
    method CopyProperties(other: VEGLJob)
      requires other != this && properties == map[]
      modifies this`properties
      ensures properties == other.properties
      ensures Details() == old(Details())
    {
      var keys, copied := other.properties.Keys, {};
      while keys != {}
        invariant keys + copied == other.properties.Keys && keys !! copied
        invariant properties == map k | k in copied :: other.properties[k]
        decreases keys
      {
        var key :| key in keys;
        var previous := SetProperty(key, other.GetProperty(key));
        keys, copied := keys - {key}, copied + {key};
      }
      assert properties == other.properties;
    }

    /**
     * `isWalltimeSet()`: a walltime limit applies. A null or zero walltime
     * means no limit; a limit that applies is at least one minute.
     */
    predicate IsWalltimeSet(): (r: bool)
      reads this
      ensures walltime.None? || walltime == Some(0) ==> !r
      ensures r ==> walltime.Some? && walltime.value >= 1
    {
      walltime.Some? && walltime.value > 0
    }
  }

  /**
   * For a walltime that is null or not negative, a limit applies exactly
   * when the walltime is neither null nor zero, as the field's documentation
   * says. A negative walltime counts as no limit.
   */
  lemma WalltimeSetAsDocumented(job: VEGLJob)
    ensures job.walltime.None? || job.walltime.value >= 0 ==>
            (job.IsWalltimeSet() <==> !(job.walltime.None? || job.walltime == Some(0)))
    ensures job.walltime.Some? && job.walltime.value < 0 ==> !job.IsWalltimeSet()
  {
  }
}
