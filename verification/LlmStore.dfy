/** The in-memory job store and the use case over it, on shared job objects. */
module LlmStore {
  import opened Options
  import L = LlmJobs

  type JobID = L.JobID

  class JobObject {
    const id: JobID
    const description: Option<string>
    const image: seq<int>
    var status: L.Status
    var result: Option<L.Creature>

    constructor (id: JobID, description: Option<string>, image: seq<int>)
      ensures this.id == id && this.description == description && this.image == image && AsJob() == L.NewJob
    {
      this.id, this.description, this.image := id, description, image;
      status, result := L.Pending, None;
    }

    ghost function AsJob(): L.Job
      reads this
    {
      L.Job(status, result)
    }
  }

  class JobStorage {
    var jobs: map<JobID, JobObject>

    constructor ()
      ensures jobs == map[]
    {
      jobs := map[];
    }

    /** Every object is stored under its own id. */
    ghost predicate Valid()
      reads this
    {
      forall id | id in jobs :: jobs[id].id == id
    }

    method Create(job: JobObject)
      requires Valid()
      modifies this
      ensures Valid() && jobs == old(jobs)[job.id := job]
    {
      jobs := jobs[job.id := job];
    }

    /** Hands out the stored object itself. */
    method Get(id: JobID) returns (job: JobObject?)
      requires Valid()
      ensures if id in jobs then job == jobs[id] else job == null
    {
      if id !in jobs {
        return null;
      }
      return jobs[id];
    }

    method Update(job: JobObject) returns (updated: bool)
      requires Valid()
      modifies if job.id in jobs then {jobs[job.id]} else {}
      ensures updated <==> job.id in jobs
      ensures updated ==> jobs[job.id].AsJob() == old(job.AsJob())
    {
      if job.id !in jobs {
        return false;
      }
      var stored := jobs[job.id];
      stored.status, stored.result := job.status, job.result;
      return true;
    }
  }

  class LLMUsecase {
    const storage: JobStorage

    constructor (storage: JobStorage)
      ensures this.storage == storage
    {
      this.storage := storage;
    }

    /** A new pending job under a new id; its worker starts afterwards. */
    method SubmitText(newID: JobID, description: string) returns (id: JobID)
      requires storage.Valid() && newID !in storage.jobs
      modifies storage
      ensures id == newID && storage.Valid()
      ensures storage.jobs.Keys == old(storage.jobs).Keys + {id} && fresh(storage.jobs[id])
      ensures storage.jobs[id].AsJob() == L.NewJob && storage.jobs[id].description == Some(description)
      ensures forall other | other in old(storage.jobs) :: storage.jobs[other] == old(storage.jobs)[other]
    {
      var job := new JobObject(newID, Some(description), []);
      storage.Create(job);
      return newID;
    }

    method SubmitImage(newID: JobID, image: seq<int>) returns (id: JobID)
      requires storage.Valid() && newID !in storage.jobs
      modifies storage
      ensures id == newID && storage.Valid()
      ensures storage.jobs.Keys == old(storage.jobs).Keys + {id} && fresh(storage.jobs[id])
      ensures storage.jobs[id].AsJob() == L.NewJob
      ensures storage.jobs[id].description == None && storage.jobs[id].image == image
      ensures forall other | other in old(storage.jobs) :: storage.jobs[other] == old(storage.jobs)[other]
    {
      var job := new JobObject(newID, None, image);
      storage.Create(job);
      return newID;
    }

    /**
     The worker of one job; only that job's object is written. trail: the stored job after each write
     and each call to the storage, which is what other requests can see meanwhile.
     */
    method Process(id: JobID, script: L.Script) returns (ghost trail: seq<L.Job>)
      requires storage.Valid()
      modifies if id in storage.jobs then {storage.jobs[id]} else {}
      ensures storage.Valid()
      ensures id in storage.jobs ==>
        && storage.jobs[id].status == L.Outcome(script).status
        && storage.jobs[id].result ==
           if storage.jobs[id].status.Ready? then script.processed else old(storage.jobs[id].result)
      ensures id in storage.jobs && old(storage.jobs[id].AsJob()) == L.NewJob ==>
        storage.jobs[id].AsJob() == L.Outcome(script)
      ensures id in storage.jobs ==> trail == L.Trail(script, old(storage.jobs[id].AsJob()))
    {
      trail := [];
      var job := storage.Get(id);
      if job == null {
        return;
      }
      ghost var was := job.AsJob();
      ghost var first, second := was.(status := L.Step1), was.(status := L.Step2);
      trail := [was];
      job.status := L.Step1;
      trail := trail + [job.AsJob()];
      var updated := storage.Update(job);
      trail := trail + [job.AsJob()];
      assert trail == [was, first, first];
      if !updated {
        return;
      }
      if !script.generates || !script.encodes || !script.decodes {
        job.status := L.Failed;
        trail := trail + [job.AsJob()];
        updated := storage.Update(job);
        trail := trail + [job.AsJob()];
        assert trail == L.Trail(script, was);
        return;
      }
      job.status := L.Step2;
      trail := trail + [job.AsJob()];
      updated := storage.Update(job);
      trail := trail + [job.AsJob()];
      assert trail == [was, first, first, second, second];
      if !updated {
        return;
      }
      if script.processed.None? {
        job.status := L.Failed;
        trail := trail + [job.AsJob()];
        updated := storage.Update(job);
        trail := trail + [job.AsJob()];
        assert trail == L.Trail(script, was);
        return;
      }
      job.status := L.Ready;
      trail := trail + [job.AsJob()];
      job.result := script.processed;
      trail := trail + [job.AsJob()];
      updated := storage.Update(job);
      trail := trail + [job.AsJob()];
      assert trail == L.Trail(script, was);
    }
  }
}
