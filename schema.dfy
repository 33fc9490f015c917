/**
 * The persistent records of the ad generator: users with their two credit
 * balances, and projects with their generation state.  The relational store
 * is modelled as one object holding a map per table; every request runs to
 * completion before the next one starts.
 */
module Schema {

  datatype Option<+T> = None | Some(value: T)

  type UserId = string
  type ProjectId = nat
  type Url = string

  /** A calendar date as the server's local clock reports it: full year,
      month as JavaScript numbers it (0 = January .. 11 = December), day of month. */
  datatype Date = Date(year: int, month: int, day: int)

  /** An instant: its local calendar date and an opaque timestamp. */
  datatype Instant = Instant(date: Date, stamp: int)

  /** The identity fields a user record copies from the identity provider. */
  datatype Profile = Profile(email: Option<string>, name: string, image: Option<string>)

  datatype User = User(profile: Profile, credits: int, dailyCredits: int, lastCreditReset: Instant)

  datatype Project = Project(
    owner: UserId,
    name: string,
    productName: string,
    productDescription: Option<string>,
    userPrompt: Option<string>,
    aspectRatio: Option<string>,
    uploadedImages: seq<Url>,
    generatedImage: Option<Url>,
    generatedVideo: Option<Url>,
    isGenerating: bool,
    isPublished: bool,
    error: Option<string>)

  /** JavaScript truthiness of a nullable string column: present and not empty. */
  predicate Truthy(s: Option<string>) {
    s.Some? && s.value != ""
  }

  /** A video is only ever stored next to a usable image. */
  predicate VideoNeedsImage(p: Project) {
    p.generatedVideo.Some? ==> Truthy(p.generatedImage)
  }

  /** Every stored id lies below the id generator and no video lacks an image. */
  predicate ValidProjects(projects: map<ProjectId, Project>, nextId: ProjectId) {
    forall id :: id in projects ==> id < nextId && VideoNeedsImage(projects[id])
  }

  predicate IdleProjects(projects: map<ProjectId, Project>) {
    forall id :: id in projects ==> !projects[id].isGenerating
  }

  predicate SolventUser(u: User) {
    u.credits >= 0 && u.dailyCredits >= 0
  }

  predicate SolventUsers(users: map<UserId, User>) {
    forall uid :: uid in users ==> SolventUser(users[uid])
  }

  /** Storing a project row under an issued id keeps the table valid, and
      keeps it idle when the row is not generating. */
  lemma StoreProjectKeeps(projects: map<ProjectId, Project>, oldNext: ProjectId, nextId: ProjectId, id: ProjectId, p: Project)
    requires ValidProjects(projects, oldNext) && oldNext <= nextId && id < nextId && VideoNeedsImage(p)
    ensures ValidProjects(projects[id := p], nextId)
    ensures IdleProjects(projects) && !p.isGenerating ==> IdleProjects(projects[id := p])
  {
  }

  /** Storing a user with non-negative balances keeps the table solvent. */
  lemma StoreUserKeeps(users: map<UserId, User>, uid: UserId, u: User)
    ensures SolventUsers(users) && SolventUser(u) ==> SolventUsers(users[uid := u])
  {
  }

  class Db {
    var users: map<UserId, User>
    var projects: map<ProjectId, Project>
    /** Stands in for the database's id generator: every stored id is below it. */
    var nextProjectId: ProjectId

    ghost predicate Valid()
      reads this
    {
      ValidProjects(projects, nextProjectId)
    }

    /** Between requests no project is marked as generating. */
    ghost predicate Idle()
      reads this
    {
      IdleProjects(projects)
    }

    /** No balance is negative. */
    ghost predicate Solvent()
      reads this
    {
      SolventUsers(users)
    }

    constructor ()
      ensures Valid() && Idle() && Solvent()
      ensures users == map[] && projects == map[] && nextProjectId == 0
    {
      users := map[];
      projects := map[];
      nextProjectId := 0;
    }
  }
}
