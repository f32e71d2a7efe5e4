// ContainerAwareness: whether the process runs inside a container, judged
// once from the "container" environment variable and then cached.

module ContainerAwareness {
  import opened Common

  /** ContainerAwareness.CONTAINER_ENV */
  const CONTAINER_ENV := "container"

  /** System.getenv(name) over the process environment `env`: null when
      the variable is not set. */
  function GetEnv(env: map<string, string>, name: string): (r: Nullable<string>)
    ensures r.NonNull? <==> name in env
    ensures r.NonNull? ==> r.value == env[name]
  {
    if name in env then NonNull(env[name]) else Null
  }

  /** The test init applies to the variable's value: present and not empty. */
  function ContainerFlag(containerEnv: Nullable<string>): bool
  {
    containerEnv.NonNull? && |containerEnv.value| != 0
  }

  /** Inside a container exactly when the variable is set to a non-empty
      value; unset or empty both give false. */
  lemma InsideContainerIff(env: map<string, string>)
    ensures ContainerFlag(GetEnv(env, CONTAINER_ENV)) <==> CONTAINER_ENV in env && env[CONTAINER_ENV] != ""
    ensures CONTAINER_ENV !in env ==> !ContainerFlag(GetEnv(env, CONTAINER_ENV))
    ensures env == map[CONTAINER_ENV := ""] ==> !ContainerFlag(GetEnv(env, CONTAINER_ENV))
  {
    if CONTAINER_ENV in env && env[CONTAINER_ENV] != "" {
      assert |env[CONTAINER_ENV]| != 0;
    }
  }

  /** The class's static state: the cached `container` flag. */
  class Awareness {
    var container: bool

    /** Loading the class: the static initialiser runs init() at once, so
        no caller ever sees the flag before the environment has been read. */
    constructor (env: map<string, string>)
      ensures container <==> CONTAINER_ENV in env && env[CONTAINER_ENV] != ""
    {
      var containerEnv := GetEnv(env, CONTAINER_ENV);
      container := ContainerFlag(containerEnv);
      InsideContainerIff(env);
    }

    /** init(): read the variable and cache the answer; the class runs it
        on load and within its package it may be run again. */
    method Init(env: map<string, string>)
      modifies this
      ensures container <==> CONTAINER_ENV in env && env[CONTAINER_ENV] != ""
    {
      var containerEnv := GetEnv(env, CONTAINER_ENV);
      container := ContainerFlag(containerEnv);
      InsideContainerIff(env);
    }

    /** isInsideContainer(): the cached flag; the environment is not read
        again, so later changes to it are not seen. */
    function IsInsideContainer(): (r: bool)
      reads this
      ensures r == container
    {
      container
    }
  }
}
