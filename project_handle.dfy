/** The handle of `testng/TestlinkProject.java`: the remote project with the plan and
    build the listener currently reports against. */
module ProjectHandle {
  import opened Results
  import opened Remote

  class TestlinkProject {
    var project: TestProject
    var plan: Option<TestPlan>
    var build: Option<Build>

    constructor (project: TestProject)
      ensures this.project == project && plan == None && build == None
    {
      this.project := project;
      plan := None;
      build := None;
    }

    method SetBuild(build: Option<Build>)
      modifies this
      ensures this.build == build && project == old(project) && plan == old(plan)
    {
      this.build := build;
    }

    method SetPlan(plan: Option<TestPlan>)
      modifies this
      ensures this.plan == plan && project == old(project) && build == old(build)
    {
      this.plan := plan;
    }

    method SetProject(project: TestProject)
      modifies this
      ensures this.project == project && plan == old(plan) && build == old(build)
    {
      this.project := project;
    }
  }
}
